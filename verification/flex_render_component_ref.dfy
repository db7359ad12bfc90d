/**
  The component ref behind Angular's `flexRender`: it keeps a dynamically
  created component in step with the render spec a table cell supplies,
  applying only what changed since the previous spec.
 */
module FlexRender {
  import opened Js

  /** A render spec (`FlexRenderComponent`): the component type, given by its
      identity, the inputs and outputs to bind, and the allow-lists of input and
      output names. An absent `inputs` or `outputs` is the empty map here, as
      every read of them applies `?? {}`. */
  datatype Spec = Spec(
    component: nat,
    inputs: map<string, Value>,
    outputs: map<string, Value>,
    allowedInputNames: set<string>,
    allowedOutputNames: set<string>)

  /** What the component instance holds under a property name: an
      `OutputEmitterRef` or some other value. */
  datatype Member = Emitter(eid: nat) | Field(v: Value)

  /** The records of a key-value diff, by key. */
  datatype MapDiff = MapDiff(added: set<string>, changed: set<string>, removed: set<string>)

  /** One `componentRef.setInput(key, value)` call reaching the component. */
  datatype InputWrite = InputWrite(key: string, value: Value)

  /** An output subscription, known only by its identity. */
  type Token = nat

  // ---------------------------------------------------------------------
  // The key-value differ
  // ---------------------------------------------------------------------

  /** A shallow key-value diff of `next` against the map the differ saw last,
      or `None` when nothing was added, changed or removed (the differ's
      `diff` then returns `null`). Values are compared by identity. */
  function ShallowDiff(prev: map<string, Value>, next: map<string, Value>): (d: Option<MapDiff>)
    ensures d.None? <==> prev == next
    ensures d.Some? ==>
      && d.value.added !! d.value.changed
      && d.value.added !! d.value.removed
      && d.value.changed !! d.value.removed
  {
    var added := next.Keys - prev.Keys;
    var changed := set k | k in prev && k in next && prev[k] != next[k];
    var removed := prev.Keys - next.Keys;
    if added == {} && changed == {} && removed == {} then
      assert forall k :: k in prev <==> k in next;
      None
    else
      Some(MapDiff(added, changed, removed))
  }

  /** Applies a diff to the map it was taken against, reading the current
      values of added and changed keys from `values`. */
  function Patch(prev: map<string, Value>, d: MapDiff, values: map<string, Value>): map<string, Value>
    requires d.added + d.changed <= values.Keys
  {
    (prev - d.removed) + map k | k in d.added + d.changed :: values[k]
  }

  /** The diff is complete: patching the old map with it gives the new map. */
  lemma DiffPatchRoundTrip(prev: map<string, Value>, next: map<string, Value>)
    ensures ShallowDiff(prev, next).Some? ==>
      && ShallowDiff(prev, next).value.added + ShallowDiff(prev, next).value.changed <= next.Keys
      && Patch(prev, ShallowDiff(prev, next).value, next) == next
  {
    if ShallowDiff(prev, next).Some? {
      var d := ShallowDiff(prev, next).value;
      var p := Patch(prev, d, next);
      forall k | k in next
        ensures k in p && p[k] == next[k]
      {
        if k !in prev {
          assert k in d.added;
        } else if prev[k] != next[k] {
          assert k in d.changed;
        }
      }
      assert p.Keys == next.Keys;
    }
  }

  // ---------------------------------------------------------------------
  // Input writes
  // ---------------------------------------------------------------------

  /** `m` restricted to the given keys. With the allow-list as the keys, it
      is the part of a batch of writes whose keys pass
      `allowedInputNames.includes(key)`. */
  function Restrict<V>(m: map<string, V>, keys: set<string>): map<string, V>
  {
    map k | k in m && k in keys :: m[k]
  }

  /** `undefined` under each of the given keys. */
  function UndefinedAt(keys: set<string>): map<string, Value>
  {
    map k | k in keys :: Undefined
  }

  /** The input writes `update` calls for when the inputs go from `prev` to
      `next`, before the allow-list: the new value of every added or changed
      key and `undefined` for every removed key. */
  function InputDelta(prev: map<string, Value>, next: map<string, Value>): map<string, Value>
  {
    map k | k in prev.Keys + next.Keys && (k !in prev || k !in next || prev[k] != next[k]) ::
      if k in next then next[k] else Undefined
  }

  /** The inputs a sequence of `setInput` calls leaves set, later calls
      overriding earlier ones. */
  function Replay(calls: seq<InputWrite>): map<string, Value>
  {
    if calls == [] then map[]
    else Replay(calls[..|calls| - 1])[calls[|calls| - 1].key := calls[|calls| - 1].value]
  }

  /** A sequence of calls sets at most as many inputs as it has calls, and
      when it sets exactly that many, every call wrote a different key and
      each key's value is the one the calls leave set. */
  lemma {:induction false} ReplayOnceEach(calls: seq<InputWrite>)
    ensures |Replay(calls)| <= |calls|
    ensures |Replay(calls)| == |calls| ==>
      && (forall i, j :: 0 <= i < j < |calls| ==> calls[i].key != calls[j].key)
      && (forall i :: 0 <= i < |calls| ==>
            calls[i].key in Replay(calls) && Replay(calls)[calls[i].key] == calls[i].value)
  {
    if calls != [] {
      var init, last := calls[..|calls| - 1], calls[|calls| - 1];
      ReplayOnceEach(init);
      if |Replay(calls)| == |calls| {
        assert last.key !in Replay(init);
        forall i | 0 <= i < |init| ensures calls[i].key != last.key {
          assert calls[i] == init[i];
        }
      }
    }
  }

  lemma ReplayAppend(calls: seq<InputWrite>, x: InputWrite)
    ensures Replay(calls + [x]) == Replay(calls)[x.key := x.value]
  {
    assert (calls + [x])[..|calls|] == calls;
  }

  lemma {:induction false} ReplayConcat(c1: seq<InputWrite>, c2: seq<InputWrite>)
    ensures Replay(c1 + c2) == Replay(c1) + Replay(c2)
    decreases |c2|
  {
    if c2 == [] {
      assert c1 + c2 == c1;
    } else {
      var init, last := c2[..|c2| - 1], c2[|c2| - 1];
      assert c1 + c2 == (c1 + init) + [last];
      ReplayAppend(c1 + init, last);
      ReplayConcat(c1, init);
    }
  }

  /** The three diff records, applied one after the other, issue exactly the
      writes of `InputDelta`; with no diff there is nothing to write. */
  lemma DeltaFromDiff(prev: map<string, Value>, next: map<string, Value>)
    ensures ShallowDiff(prev, next).None? ==> InputDelta(prev, next) == map[]
    ensures ShallowDiff(prev, next).Some? ==>
      var d := ShallowDiff(prev, next).value;
      && Restrict(next, d.added).Keys !! Restrict(next, d.changed).Keys
      && (Restrict(next, d.added) + Restrict(next, d.changed)).Keys !! UndefinedAt(d.removed).Keys
      && InputDelta(prev, next) == Restrict(next, d.added) + Restrict(next, d.changed) + UndefinedAt(d.removed)
  {
    if ShallowDiff(prev, next).Some? {
      var d := ShallowDiff(prev, next).value;
      var lhs := InputDelta(prev, next);
      var rhs := Restrict(next, d.added) + Restrict(next, d.changed) + UndefinedAt(d.removed);
      assert lhs.Keys == rhs.Keys;
      forall k | k in lhs ensures lhs[k] == rhs[k] {
        if k in d.removed {
          assert k !in next;
        }
      }
    }
  }

  /** An input whose value did not change is never written, every other key
      of either map is, and removed keys are written `undefined`. */
  lemma InputDeltaWritesExactlyChanges(prev: map<string, Value>, next: map<string, Value>, k: string)
    ensures k in InputDelta(prev, next) <==>
      (k in prev || k in next) && !(k in prev && k in next && prev[k] == next[k])
    ensures k in next && k in InputDelta(prev, next) ==> InputDelta(prev, next)[k] == next[k]
    ensures k in prev && k !in next ==> InputDelta(prev, next)[k] == Undefined
  {
  }

  /** Calling `update` again with the inputs the differ saw last writes nothing. */
  lemma SameInputsNoWrites(m: map<string, Value>, names: set<string>)
    ensures Restrict(InputDelta(m, m), names) == map[]
  {
    assert InputDelta(m, m) == map[];
  }

  /** When every key involved is allowed, the component's inputs follow the
      spec: after the writes of an update, each input of the new spec holds its
      value and each removed one holds `undefined`, given that the inputs
      already held the previous spec's values. */
  lemma InputsFollowSpec(applied: map<string, Value>, prev: map<string, Value>,
                         next: map<string, Value>, names: set<string>)
    requires forall k :: k in prev ==> k in applied && applied[k] == prev[k]
    requires forall k :: k in prev || k in next ==> k in names
    ensures forall k :: k in next ==>
      k in applied + Restrict(InputDelta(prev, next), names) &&
      (applied + Restrict(InputDelta(prev, next), names))[k] == next[k]
    ensures forall k :: k in prev && k !in next ==>
      (applied + Restrict(InputDelta(prev, next), names))[k] == Undefined
  {
    var after := applied + Restrict(InputDelta(prev, next), names);
    forall k | k in next ensures k in after && after[k] == next[k] {
      InputDeltaWritesExactlyChanges(prev, next, k);
    }
    forall k | k in prev && k !in next ensures after[k] == Undefined {
      InputDeltaWritesExactlyChanges(prev, next, k);
    }
  }

  lemma RestrictUnion(m1: map<string, Value>, m2: map<string, Value>, names: set<string>)
    ensures Restrict(m1 + m2, names) == Restrict(m1, names) + Restrict(m2, names)
    ensures m1.Keys !! m2.Keys ==> Restrict(m1, names).Keys !! Restrict(m2, names).Keys
  {
    assert Restrict(m1 + m2, names).Keys == (Restrict(m1, names) + Restrict(m2, names)).Keys;
  }

  lemma RestrictStep(m: map<string, Value>, done: set<string>, k: string, names: set<string>)
    requires k in m && k !in done
    ensures k !in Restrict(Restrict(m, done), names)
    ensures Restrict(Restrict(m, done + {k}), names) ==
      if k in names then Restrict(Restrict(m, done), names)[k := m[k]] else Restrict(Restrict(m, done), names)
  {
  }

  /** The component's inputs went from `applied0` to `applied` by the
      `setInput` calls `calls`, which wrote each key of `batch` exactly once,
      with its value, in some order. */
  ghost predicate Issued(applied0: map<string, Value>, applied: map<string, Value>,
                         batch: map<string, Value>, calls: seq<InputWrite>)
  {
    && applied == applied0 + batch
    && |calls| == |batch|
    && Replay(calls) == batch
  }

  /** One more key of `m` taken from `todo` and passed to `setInput`. */
  lemma IssuedStep(applied0: map<string, Value>, applied: map<string, Value>, calls: seq<InputWrite>,
                   m: map<string, Value>, todo: set<string>, k: string, names: set<string>)
    requires k in todo && todo <= m.Keys
    requires Issued(applied0, applied, Restrict(Restrict(m, m.Keys - todo), names), calls)
    ensures k in names ==>
      Issued(applied0, applied[k := m[k]], Restrict(Restrict(m, m.Keys - (todo - {k})), names),
             calls + [InputWrite(k, m[k])])
    ensures k !in names ==>
      Issued(applied0, applied, Restrict(Restrict(m, m.Keys - (todo - {k})), names), calls)
  {
    var done := m.Keys - todo;
    assert m.Keys - (todo - {k}) == done + {k};
    var batch := Restrict(Restrict(m, done), names);
    RestrictStep(m, done, k, names);
    if k in names {
      UnionUpdate(applied0, batch, k, m[k]);
      ReplayAppend(calls, InputWrite(k, m[k]));
    }
  }

  /** Before any `setInput` call nothing is issued. */
  lemma IssuedNothing(applied: map<string, Value>, m: map<string, Value>, names: set<string>)
    ensures Issued(applied, applied, Restrict(Restrict(m, m.Keys - m.Keys), names), [])
  {
    assert Restrict(Restrict(m, m.Keys - m.Keys), names) == map[];
    assert applied + map[] == applied;
  }

  /** Two batches issued one after the other with disjoint keys amount to their union. */
  lemma IssuedThen(applied0: map<string, Value>, applied1: map<string, Value>, applied2: map<string, Value>,
                   b1: map<string, Value>, b2: map<string, Value>,
                   c1: seq<InputWrite>, c2: seq<InputWrite>)
    requires b1.Keys !! b2.Keys
    requires Issued(applied0, applied1, b1, c1)
    requires Issued(applied1, applied2, b2, c2)
    ensures Issued(applied0, applied2, b1 + b2, c1 + c2)
  {
    ReplayConcat(c1, c2);
    UnionAssoc(applied0, b1, b2);
    DisjointUnionSize(b1, b2);
  }

  /** With no input diff there is nothing to write. */
  lemma IssuedNoDiff(applied: map<string, Value>, prev: map<string, Value>, next: map<string, Value>,
                     names: set<string>)
    requires ShallowDiff(prev, next).None?
    ensures Issued(applied, applied, Restrict(InputDelta(prev, next), names), [])
  {
    DeltaFromDiff(prev, next);
    assert Restrict<Value>(map[], names) == map[];
    assert applied + map[] == applied;
  }

  /** The added, changed and removed writes, issued one batch after the
      other, issue `InputDelta` as a whole. */
  lemma IssuedDelta(prev: map<string, Value>, next: map<string, Value>, d: MapDiff, names: set<string>,
                    applied0: map<string, Value>, applied1: map<string, Value>,
                    applied2: map<string, Value>, applied3: map<string, Value>,
                    c1: seq<InputWrite>, c2: seq<InputWrite>, c3: seq<InputWrite>)
    requires ShallowDiff(prev, next) == Some(d)
    requires Issued(applied0, applied1, Restrict(Restrict(next, d.added), names), c1)
    requires Issued(applied1, applied2, Restrict(Restrict(next, d.changed), names), c2)
    requires Issued(applied2, applied3, Restrict(UndefinedAt(d.removed), names), c3)
    ensures Issued(applied0, applied3, Restrict(InputDelta(prev, next), names), c1 + c2 + c3)
  {
    var addedWrites, changedWrites, removedWrites :=
      Restrict(next, d.added), Restrict(next, d.changed), UndefinedAt(d.removed);
    DeltaFromDiff(prev, next);
    RestrictUnion(addedWrites, changedWrites, names);
    RestrictUnion(addedWrites + changedWrites, removedWrites, names);
    IssuedThen(applied0, applied1, applied2, Restrict(addedWrites, names), Restrict(changedWrites, names), c1, c2);
    IssuedThen(applied0, applied2, applied3, Restrict(addedWrites + changedWrites, names),
               Restrict(removedWrites, names), c1 + c2, c3);
  }

  /** A log grown by three batches of calls grew by their concatenation. */
  lemma LogThen<T>(log0: seq<T>, log1: seq<T>, log2: seq<T>, log3: seq<T>, c1: seq<T>, c2: seq<T>, c3: seq<T>)
    requires log1 == log0 + c1 && log2 == log1 + c2 && log3 == log2 + c3
    ensures log3 == log0 + (c1 + c2 + c3)
  {
  }

  lemma AppendAssoc<T>(a: seq<T>, b: seq<T>, c: seq<T>)
    ensures (a + b) + c == a + (b + c)
  {
  }

  lemma UnionAssoc<V>(a: map<string, V>, b: map<string, V>, c: map<string, V>)
    ensures (a + b) + c == a + (b + c)
  {
  }

  lemma DisjointUnionSize<V>(a: map<string, V>, b: map<string, V>)
    requires a.Keys !! b.Keys
    ensures |a + b| == |a| + |b|
  {
    assert (a + b).Keys == a.Keys + b.Keys;
  }

  lemma UnionUpdate<V>(a: map<string, V>, b: map<string, V>, k: string, v: V)
    ensures (a + b)[k := v] == a + b[k := v]
  {
  }

  // ---------------------------------------------------------------------
  // Output subscriptions
  // ---------------------------------------------------------------------

  /** `allowedOutputNames.includes(name)`: only a string can be equal to an
      element of a list of strings. */
  predicate Includes(names: set<string>, name: Value)
  {
    name.Str? && name.s in names
  }

  /** Whether `setOutput(name, …)` subscribes: the name passes the allow-list
      and the instance holds an `OutputEmitterRef` under it. */
  predicate Subscribable(instance: map<string, Member>, names: set<string>, name: Value)
  {
    Includes(names, name) && name.s in instance && instance[name.s].Emitter?
  }

  /** The added output keys whose value, passed to `setOutput` as the name,
      leads to a subscription. */
  function SubscribingKeys(instance: map<string, Member>, names: set<string>,
                           keys: set<string>, outputs: map<string, Value>): set<string>
  {
    set k | k in keys && k in outputs && Subscribable(instance, names, outputs[k])
  }

  /** The names under which those subscriptions are stored: the values, not the keys. */
  function SubscribedNames(instance: map<string, Member>, names: set<string>,
                           keys: set<string>, outputs: map<string, Value>): set<string>
  {
    set k | k in SubscribingKeys(instance, names, keys, outputs) :: outputs[k].s
  }

  /** An added output whose value is a callback (the declared type of
      `outputs`) never subscribes, whatever the allow-list and the instance. */
  lemma CallbackOutputsNeverSubscribe(instance: map<string, Member>, names: set<string>,
                                      keys: set<string>, outputs: map<string, Value>)
    requires forall k :: k in outputs ==> outputs[k].Fn?
    ensures SubscribingKeys(instance, names, keys, outputs) == {}
    ensures SubscribedNames(instance, names, keys, outputs) == {}
  {
  }

  /** The tokens handed out while the counter went from `lo` to `hi`. */
  function TokenRange(lo: nat, hi: nat): set<Token>
    decreases hi
  {
    if hi <= lo then {} else TokenRange(lo, hi - 1) + {hi - 1}
  }

  lemma {:induction false} TokenRangeBounds(lo: nat, hi: nat, t: Token)
    ensures t in TokenRange(lo, hi) <==> lo <= t < hi
    decreases hi
  {
    if lo < hi {
      TokenRangeBounds(lo, hi - 1, t);
    }
  }

  /** What `setOutput(name, …)` does to the subscription table, the live
      subscriptions and the token counter. */
  ghost predicate SetOutputEffect(instance: map<string, Member>, names: set<string>, name: Value,
                                  subs: map<string, Token>, act: set<Token>, next: Token,
                                  subs': map<string, Token>, act': set<Token>, next': Token)
  {
    if Subscribable(instance, names, name) then
      subs' == subs[name.s := next] && act' == act + {next} && next' == next + 1
    else
      subs' == subs && act' == act && next' == next
  }

  /** The state after `forEachAddedItem` has visited the keys `done` of the
      output diff, starting from `subs0`, `act0` and `next0`. */
  ghost predicate AddedSoFar(instance: map<string, Member>, names: set<string>,
                             outputs: map<string, Value>, done: set<string>,
                             subs0: map<string, Token>, act0: set<Token>, next0: Token,
                             subs: map<string, Token>, act: set<Token>, next: Token)
  {
    && next == next0 + |SubscribingKeys(instance, names, done, outputs)|
    && subs.Keys == subs0.Keys + SubscribedNames(instance, names, done, outputs)
    && (forall n :: n in subs0 && n !in SubscribedNames(instance, names, done, outputs) ==>
          subs[n] == subs0[n])
    && (forall n :: n in SubscribedNames(instance, names, done, outputs) ==> next0 <= subs[n])
    && act == act0 + TokenRange(next0, next)
  }

  lemma AddedNothing(instance: map<string, Member>, names: set<string>, outputs: map<string, Value>,
                     added: set<string>, subs0: map<string, Token>, act0: set<Token>, next0: Token)
    ensures AddedSoFar(instance, names, outputs, added - added, subs0, act0, next0, subs0, act0, next0)
  {
    assert SubscribingKeys(instance, names, added - added, outputs) == {};
    assert SubscribedNames(instance, names, added - added, outputs) == {};
  }

  lemma AddedStep(instance: map<string, Member>, names: set<string>, outputs: map<string, Value>,
                  done: set<string>, key: string,
                  subs0: map<string, Token>, act0: set<Token>, next0: Token,
                  subs: map<string, Token>, act: set<Token>, next: Token,
                  subs': map<string, Token>, act': set<Token>, next': Token)
    requires key in outputs && key !in done
    requires AddedSoFar(instance, names, outputs, done, subs0, act0, next0, subs, act, next)
    requires SetOutputEffect(instance, names, outputs[key], subs, act, next, subs', act', next')
    ensures AddedSoFar(instance, names, outputs, done + {key}, subs0, act0, next0, subs', act', next')
  {
    if Subscribable(instance, names, outputs[key]) {
      AddedStepSubscribed(instance, names, outputs, done, key, subs0, act0, next0, subs, act, next);
    } else {
      SubscribingStep(instance, names, outputs, done, key);
    }
  }

  lemma AddedStepSubscribed(instance: map<string, Member>, names: set<string>, outputs: map<string, Value>,
                            done: set<string>, key: string,
                            subs0: map<string, Token>, act0: set<Token>, next0: Token,
                            subs: map<string, Token>, act: set<Token>, next: Token)
    requires key in outputs && key !in done && Subscribable(instance, names, outputs[key])
    requires AddedSoFar(instance, names, outputs, done, subs0, act0, next0, subs, act, next)
    ensures AddedSoFar(instance, names, outputs, done + {key}, subs0, act0, next0,
                       subs[outputs[key].s := next], act + {next}, next + 1)
  {
    SubscribingStep(instance, names, outputs, done, key);
    TokenRangeStep(act0, act, next0, next);
    TableStep(subs0, subs, SubscribedNames(instance, names, done, outputs),
              SubscribedNames(instance, names, done + {key}, outputs), outputs[key].s, next0, next);
  }

  /** Storing a fresh token under `name` keeps the table's relation to the
      table it started from, with `name` counted among the new names. */
  lemma TableStep(subs0: map<string, Token>, subs: map<string, Token>, born: set<string>, born': set<string>,
                  name: string, next0: Token, next: Token)
    requires born' == born + {name} && next0 <= next
    requires subs.Keys == subs0.Keys + born
    requires forall n :: n in subs0 && n !in born ==> subs[n] == subs0[n]
    requires forall n :: n in born ==> next0 <= subs[n]
    ensures subs[name := next].Keys == subs0.Keys + born'
    ensures forall n :: n in subs0 && n !in born' ==> subs[name := next][n] == subs0[n]
    ensures forall n :: n in born' ==> next0 <= subs[name := next][n]
  {
  }

  lemma SubscribingStep(instance: map<string, Member>, names: set<string>, outputs: map<string, Value>,
                        done: set<string>, key: string)
    requires key in outputs && key !in done
    ensures Subscribable(instance, names, outputs[key]) ==>
      && SubscribingKeys(instance, names, done + {key}, outputs) == SubscribingKeys(instance, names, done, outputs) + {key}
      && |SubscribingKeys(instance, names, done + {key}, outputs)| == |SubscribingKeys(instance, names, done, outputs)| + 1
      && SubscribedNames(instance, names, done + {key}, outputs) == SubscribedNames(instance, names, done, outputs) + {outputs[key].s}
    ensures !Subscribable(instance, names, outputs[key]) ==>
      && SubscribingKeys(instance, names, done + {key}, outputs) == SubscribingKeys(instance, names, done, outputs)
      && SubscribedNames(instance, names, done + {key}, outputs) == SubscribedNames(instance, names, done, outputs)
  {
    if Subscribable(instance, names, outputs[key]) {
      assert SubscribingKeys(instance, names, done + {key}, outputs)
          == SubscribingKeys(instance, names, done, outputs) + {key};
    } else {
      assert SubscribingKeys(instance, names, done + {key}, outputs)
          == SubscribingKeys(instance, names, done, outputs);
    }
  }

  /** The names of `keys` that `setOutput(name, …)` subscribes. */
  function SubscribableKeys(instance: map<string, Member>, names: set<string>, keys: set<string>): set<string>
  {
    set p | p in keys && Subscribable(instance, names, Str(p))
  }

  /** The state after `setOutputs` has visited the keys `done`, starting
      from an empty table, the live subscriptions `act0` and counter `next0`. */
  ghost predicate OutputsSoFar(instance: map<string, Member>, names: set<string>, done: set<string>,
                               act0: set<Token>, next0: Token,
                               subs: map<string, Token>, act: set<Token>, next: Token)
  {
    && subs.Keys == SubscribableKeys(instance, names, done)
    && (forall p :: p in subs ==> next0 <= subs[p])
    && next == next0 + |subs|
    && act == act0 + TokenRange(next0, next)
  }

  lemma OutputsNothing(instance: map<string, Member>, names: set<string>, keys: set<string>,
                       act0: set<Token>, next0: Token)
    ensures OutputsSoFar(instance, names, keys - keys, act0, next0, map[], act0, next0)
  {
    assert SubscribableKeys(instance, names, keys - keys) == {};
  }

  lemma OutputsStep(instance: map<string, Member>, names: set<string>,
                    done: set<string>, key: string, act0: set<Token>, next0: Token,
                    subs: map<string, Token>, act: set<Token>, next: Token,
                    subs': map<string, Token>, act': set<Token>, next': Token)
    requires key !in done
    requires OutputsSoFar(instance, names, done, act0, next0, subs, act, next)
    requires SetOutputEffect(instance, names, Str(key), subs, act, next, subs', act', next')
    ensures OutputsSoFar(instance, names, done + {key}, act0, next0, subs', act', next')
  {
    if Subscribable(instance, names, Str(key)) {
      OutputsStepSubscribed(instance, names, done, key, act0, next0, subs, act, next);
    } else {
      OutputsStepSkipped(instance, names, done, key, act0, next0, subs, act, next);
    }
  }

  lemma OutputsStepSubscribed(instance: map<string, Member>, names: set<string>,
                              done: set<string>, key: string, act0: set<Token>, next0: Token,
                              subs: map<string, Token>, act: set<Token>, next: Token)
    requires key !in done && Subscribable(instance, names, Str(key))
    requires OutputsSoFar(instance, names, done, act0, next0, subs, act, next)
    ensures OutputsSoFar(instance, names, done + {key}, act0, next0, subs[key := next], act + {next}, next + 1)
  {
    SubscribableKeysStep(instance, names, done, key);
    assert key !in subs;
    FreshEntry(subs, subs[key := next], key, next, next0);
    TokenRangeStep(act0, act, next0, next);
  }

  lemma OutputsStepSkipped(instance: map<string, Member>, names: set<string>,
                           done: set<string>, key: string, act0: set<Token>, next0: Token,
                           subs: map<string, Token>, act: set<Token>, next: Token)
    requires key !in done && !Subscribable(instance, names, Str(key))
    requires OutputsSoFar(instance, names, done, act0, next0, subs, act, next)
    ensures OutputsSoFar(instance, names, done + {key}, act0, next0, subs, act, next)
  {
    SubscribableKeysStep(instance, names, done, key);
  }

  /** Taking `key` out of what is left to visit adds it to what was visited. */
  lemma KeysStep(keys: set<string>, todo: set<string>, key: string)
    requires key in todo && todo <= keys
    ensures key !in keys - todo
    ensures keys - (todo - {key}) == (keys - todo) + {key}
  {
  }

  lemma SubscribableKeysStep(instance: map<string, Member>, names: set<string>, done: set<string>, key: string)
    ensures SubscribableKeys(instance, names, done + {key}) ==
      if Subscribable(instance, names, Str(key)) then SubscribableKeys(instance, names, done) + {key}
      else SubscribableKeys(instance, names, done)
  {
  }

  /** Storing a new token under a fresh name grows the table by one entry. */
  lemma FreshEntry(subs: map<string, Token>, subs': map<string, Token>, key: string, next: Token, lo: Token)
    requires key !in subs && lo <= next && subs' == subs[key := next]
    requires forall p :: p in subs ==> lo <= subs[p]
    ensures subs'.Keys == subs.Keys + {key}
    ensures |subs'| == |subs| + 1
    ensures forall p :: p in subs' ==> lo <= subs'[p]
  {
  }

  /** Handing out one more token extends the live set by exactly that token. */
  lemma TokenRangeStep(act0: set<Token>, act: set<Token>, lo: nat, hi: nat)
    requires lo <= hi && act == act0 + TokenRange(lo, hi)
    ensures act + {hi} == act0 + TokenRange(lo, hi + 1)
  {
    assert TokenRange(lo, hi + 1) == TokenRange(lo, hi) + {hi};
  }

  /** Every token in the table and every live token was handed out already:
      it is below the counter. Each subscription is a new object, so different
      names never share one. */
  ghost predicate SubscriptionsValid(subs: map<string, Token>, act: set<Token>, next: Token)
  {
    && (forall k :: k in subs ==> subs[k] < next)
    && (forall t :: t in act ==> t < next)
    && (forall a, b :: a in subs && b in subs && a != b ==> subs[a] != subs[b])
  }

  /** The subscriptions after an output diff from `prev` to `next` was
      applied to the table `subs0`, live tokens `act0` and counter `next0`:
      one fresh token per added key whose VALUE names a subscribable output,
      stored under that value; other entries untouched; and the tokens
      stored under removed keys released. */
  ghost predicate OutputsFollowDiff(instance: map<string, Member>, names: set<string>,
                                    prev: map<string, Value>, next: map<string, Value>,
                                    subs0: map<string, Token>, act0: set<Token>, next0: Token,
                                    subs: map<string, Token>, act: set<Token>, nextTok: Token)
  {
    var added := next.Keys - prev.Keys;
    && nextTok == next0 + |SubscribingKeys(instance, names, added, next)|
    && subs.Keys == subs0.Keys + SubscribedNames(instance, names, added, next)
    && (forall n :: n in subs0 && n !in SubscribedNames(instance, names, added, next) ==> subs[n] == subs0[n])
    && (forall n :: n in SubscribedNames(instance, names, added, next) ==> next0 <= subs[n])
    && act == (act0 + TokenRange(next0, nextTok)) - TokensUnder(subs, prev.Keys - next.Keys)
  }

  /** With no output diff nothing is subscribed or released. */
  lemma OutputsFollowNoDiff(instance: map<string, Member>, names: set<string>,
                            prev: map<string, Value>, next: map<string, Value>,
                            subs0: map<string, Token>, act0: set<Token>, next0: Token)
    requires ShallowDiff(prev, next).None?
    ensures OutputsFollowDiff(instance, names, prev, next, subs0, act0, next0, subs0, act0, next0)
  {
    assert SubscribingKeys(instance, names, next.Keys - prev.Keys, next) == {};
    assert SubscribedNames(instance, names, next.Keys - prev.Keys, next) == {};
    assert TokensUnder(subs0, prev.Keys - next.Keys) == {};
    assert TokenRange(next0, next0) == {};
  }

  /** The added items visited, then the removed ones released, make up the
      whole output update. */
  lemma OutputsFollowFromSteps(instance: map<string, Member>, names: set<string>,
                               prev: map<string, Value>, next: map<string, Value>, d: MapDiff,
                               subs0: map<string, Token>, act0: set<Token>, next0: Token,
                               subs1: map<string, Token>, act1: set<Token>, next1: Token, act2: set<Token>)
    requires ShallowDiff(prev, next) == Some(d)
    requires AddedSoFar(instance, names, next, d.added, subs0, act0, next0, subs1, act1, next1)
    requires act2 == act1 - TokensUnder(subs1, d.removed)
    ensures OutputsFollowDiff(instance, names, prev, next, subs0, act0, next0, subs1, act2, next1)
  {
  }

  /** Calling `update` again with the outputs the differ saw last leaves the
      subscriptions alone. */
  lemma SameOutputsNoChange(instance: map<string, Member>, names: set<string>, m: map<string, Value>,
                            subs0: map<string, Token>, act0: set<Token>, next0: Token,
                            subs: map<string, Token>, act: set<Token>, nextTok: Token)
    requires OutputsFollowDiff(instance, names, m, m, subs0, act0, next0, subs, act, nextTok)
    ensures subs == subs0 && act == act0 && nextTok == next0
  {
    assert m.Keys - m.Keys == {};
    assert SubscribingKeys(instance, names, {}, m) == {};
    assert SubscribedNames(instance, names, {}, m) == {};
    assert TokensUnder(subs, {}) == {};
    assert TokenRange(next0, next0) == {};
  }

  /** When every output is a callback, as the declared type of `outputs` says, `update`
      never subscribes anything: the table keeps exactly its entries, removed
      outputs included, and the only change is that the subscriptions under
      removed outputs are released. */
  lemma CallbackOutputsOnlyRelease(instance: map<string, Member>, names: set<string>,
                                   prev: map<string, Value>, next: map<string, Value>,
                                   subs0: map<string, Token>, act0: set<Token>, next0: Token,
                                   subs: map<string, Token>, act: set<Token>, nextTok: Token)
    requires forall k :: k in next ==> next[k].Fn?
    requires OutputsFollowDiff(instance, names, prev, next, subs0, act0, next0, subs, act, nextTok)
    ensures subs == subs0 && nextTok == next0
    ensures act == act0 - TokensUnder(subs0, prev.Keys - next.Keys)
  {
    CallbackOutputsNeverSubscribe(instance, names, next.Keys - prev.Keys, next);
    assert TokenRange(next0, next0) == {};
  }

  /** The tokens a subscription table stores under the given names. */
  function TokensUnder(subs: map<string, Token>, keys: set<string>): set<Token>
  {
    set k | k in keys && k in subs :: subs[k]
  }

  lemma TokensUnderStep(subs: map<string, Token>, done: set<string>, k: string)
    requires k in subs
    ensures TokensUnder(subs, done + {k}) == TokensUnder(subs, done) + {subs[k]}
  {
  }

  // ---------------------------------------------------------------------
  // The component ref
  // ---------------------------------------------------------------------

  class FlexRenderComponentRef {
    /** The spec applied last. */
    var componentData: Spec
    /** The input and output differs, each as the map it diffed last. */
    var inputDiffer: map<string, Value>
    var outputDiffer: map<string, Value>
    /** The members of the created component instance. */
    const instance: map<string, Member>
    /** The inputs set on the component through this ref, and every such call in order. */
    var appliedInputs: map<string, Value>
    var inputLog: seq<InputWrite>
    /** `outputSubscribers`, the subscriptions not yet unsubscribed, and the
        next token a subscription will get. */
    var outputSubscribers: map<string, Token>
    var activeTokens: set<Token>
    var nextToken: Token

    /** The subscription bookkeeping is consistent. */
    ghost predicate Valid()
      reads this`outputSubscribers, this`activeTokens, this`nextToken
    {
      SubscriptionsValid(outputSubscribers, activeTokens, nextToken)
    }

    /** Seeds both differs with the initial spec; nothing is set or subscribed yet. */
    constructor (componentData: Spec, instance: map<string, Member>)
      ensures Valid()
      ensures this.componentData == componentData && this.instance == instance
      ensures inputDiffer == componentData.inputs && outputDiffer == componentData.outputs
      ensures appliedInputs == map[] && inputLog == []
      ensures outputSubscribers == map[] && activeTokens == {} && nextToken == 0
    {
      this.componentData := componentData;
      this.instance := instance;
      inputDiffer := componentData.inputs;
      outputDiffer := componentData.outputs;
      appliedInputs := map[];
      inputLog := [];
      outputSubscribers := map[];
      activeTokens := {};
      nextToken := 0;
    }

    /** Whether `compare` has the component type this ref was created for. */
    function EqType(compare: Spec): (eq: bool)
      reads this`componentData
    {
      compare.component == componentData.component
    }

    method DiffInputs(item: Spec) returns (d: Option<MapDiff>)
      modifies this`inputDiffer
      ensures d == ShallowDiff(old(inputDiffer), item.inputs)
      ensures d.None? <==> old(inputDiffer) == item.inputs
      ensures inputDiffer == item.inputs
    {
      d := ShallowDiff(inputDiffer, item.inputs);
      inputDiffer := item.inputs;
    }

    method DiffOutputs(item: Spec) returns (d: Option<MapDiff>)
      modifies this`outputDiffer
      ensures d == ShallowDiff(old(outputDiffer), item.outputs)
      ensures outputDiffer == item.outputs
    {
      d := ShallowDiff(outputDiffer, item.outputs);
      outputDiffer := item.outputs;
    }

    /** Sets an input on the component if the current spec allows its name. */
    method SetInput(key: string, value: Value)
      modifies this`appliedInputs, this`inputLog
      ensures key in componentData.allowedInputNames ==>
        appliedInputs == old(appliedInputs)[key := value] &&
        inputLog == old(inputLog) + [InputWrite(key, value)]
      ensures key !in componentData.allowedInputNames ==>
        appliedInputs == old(appliedInputs) && inputLog == old(inputLog)
    {
      if key in componentData.allowedInputNames {
        appliedInputs := appliedInputs[key := value];
        inputLog := inputLog + [InputWrite(key, value)];
      }
    }

    /** `setInput` for every entry of `inputs`, in some order; `calls` are
        the calls that reached the component. */
    method SetInputs(inputs: map<string, Value>, ghost names: set<string>) returns (ghost calls: seq<InputWrite>)
      requires names == componentData.allowedInputNames
      modifies this`appliedInputs, this`inputLog
      ensures inputLog == old(inputLog) + calls
      ensures Issued(old(appliedInputs), appliedInputs, Restrict(inputs, names), calls)
    {
      ghost var applied0, log0 := appliedInputs, inputLog;
      calls := [];
      IssuedNothing(applied0, inputs, names);
      var todo := inputs.Keys;
      while todo != {}
        invariant todo <= inputs.Keys
        invariant names == componentData.allowedInputNames
        invariant inputLog == log0 + calls
        invariant Issued(applied0, appliedInputs, Restrict(Restrict(inputs, inputs.Keys - todo), names), calls)
        decreases todo
      {
        var prop :| prop in todo;
        IssuedStep(applied0, appliedInputs, calls, inputs, todo, prop, names);
        SetInput(prop, inputs[prop]);
        if prop in names {
          AppendAssoc(log0, calls, [InputWrite(prop, inputs[prop])]);
          calls := calls + [InputWrite(prop, inputs[prop])];
        }
        todo := todo - {prop};
      }
      assert inputs.Keys - todo == inputs.Keys;
      assert Restrict(inputs, inputs.Keys) == inputs;
    }

    /** Subscribes to the instance's emitter under `outputName` if the current
        spec allows the name; an earlier subscription under the same name is
        overwritten in the table but stays subscribed. */
    method SetOutput(outputName: Value)
      requires Valid()
      modifies this`outputSubscribers, this`activeTokens, this`nextToken
      ensures Valid()
      ensures Subscribable(instance, componentData.allowedOutputNames, outputName) ==>
        && outputSubscribers == old(outputSubscribers)[outputName.s := old(nextToken)]
        && activeTokens == old(activeTokens) + {old(nextToken)}
        && nextToken == old(nextToken) + 1
      ensures !Subscribable(instance, componentData.allowedOutputNames, outputName) ==>
        && outputSubscribers == old(outputSubscribers)
        && activeTokens == old(activeTokens)
        && nextToken == old(nextToken)
    {
      if !Includes(componentData.allowedOutputNames, outputName) {
        return;
      }
      var output := if outputName.s in instance then instance[outputName.s] else Field(Undefined);
      if output.Emitter? {
        outputSubscribers := outputSubscribers[outputName.s := nextToken];
        activeTokens := activeTokens + {nextToken};
        nextToken := nextToken + 1;
      }
    }

    /** Unsubscribes and forgets the subscription under `prop`, if there is one. */
    method UnsubscribeOutput(prop: string)
      requires Valid()
      modifies this`outputSubscribers, this`activeTokens
      ensures Valid()
      ensures prop in old(outputSubscribers) ==>
        && outputSubscribers == old(outputSubscribers) - {prop}
        && activeTokens == old(activeTokens) - {old(outputSubscribers)[prop]}
      ensures prop !in old(outputSubscribers) ==>
        outputSubscribers == old(outputSubscribers) && activeTokens == old(activeTokens)
    {
      if prop in outputSubscribers {
        activeTokens := activeTokens - {outputSubscribers[prop]};
        outputSubscribers := outputSubscribers - {prop};
      }
    }

    /** Unsubscribes every subscription in the table and empties it. */
    method UnsubscribeOutputs()
      requires Valid()
      modifies this`outputSubscribers, this`activeTokens
      ensures Valid()
      ensures outputSubscribers == map[]
      ensures activeTokens == old(activeTokens) - old(outputSubscribers).Values
    {
      ghost var subs0 := outputSubscribers;
      var todo := outputSubscribers.Keys;
      while todo != {}
        invariant todo <= subs0.Keys
        invariant outputSubscribers == Restrict(subs0, todo)
        invariant activeTokens == old(activeTokens) - TokensUnder(subs0, subs0.Keys - todo)
        invariant Valid()
        decreases todo
      {
        var prop :| prop in todo;
        UnsubscribeOutput(prop);
        KeysStep(subs0.Keys, todo, prop);
        TokensUnderStep(subs0, subs0.Keys - todo, prop);
        todo := todo - {prop};
      }
      assert subs0.Keys - todo == subs0.Keys;
      assert TokensUnder(subs0, subs0.Keys) == subs0.Values;
    }

    /** The host destroying the component runs the hook the constructor
        registers with `onDestroy`, which releases every subscription. */
    method Destroy()
      requires Valid()
      modifies this`outputSubscribers, this`activeTokens
      ensures Valid()
      ensures outputSubscribers == map[]
      ensures activeTokens == old(activeTokens) - old(outputSubscribers).Values
    {
      UnsubscribeOutputs();
    }

    /** Releases every subscription, then subscribes each allowed name of
        `outputs` that has an emitter on the instance. */
    method SetOutputs(outputs: map<string, Value>)
      requires Valid()
      modifies this`outputSubscribers, this`activeTokens, this`nextToken
      ensures Valid()
      ensures outputSubscribers.Keys == SubscribableKeys(instance, componentData.allowedOutputNames, outputs.Keys)
      ensures forall p :: p in outputSubscribers ==> old(nextToken) <= outputSubscribers[p]
      ensures nextToken == old(nextToken) + |outputSubscribers|
      ensures activeTokens ==
        (old(activeTokens) - old(outputSubscribers).Values) + TokenRange(old(nextToken), nextToken)
    {
      UnsubscribeOutputs();
      ghost var names := componentData.allowedOutputNames;
      ghost var act0, next0 := activeTokens, nextToken;
      OutputsNothing(instance, names, outputs.Keys, act0, next0);
      var todo := outputs.Keys;
      while todo != {}
        invariant todo <= outputs.Keys
        invariant Valid()
        invariant OutputsSoFar(instance, names, outputs.Keys - todo, act0, next0,
                               outputSubscribers, activeTokens, nextToken)
        decreases todo
      {
        var prop :| prop in todo;
        ghost var subs, act, next := outputSubscribers, activeTokens, nextToken;
        SetOutput(Str(prop));
        KeysStep(outputs.Keys, todo, prop);
        OutputsStep(instance, names, outputs.Keys - todo, prop, act0, next0,
                    subs, act, next, outputSubscribers, activeTokens, nextToken);
        todo := todo - {prop};
      }
      assert outputs.Keys - todo == outputs.Keys;
    }

    /** `forEachAddedItem` of the output diff: each added item's VALUE is
        passed to `setOutput` as the output name. */
    method ForEachAddedOutput(added: set<string>, outputs: map<string, Value>, ghost names: set<string>)
      requires Valid() && added <= outputs.Keys && names == componentData.allowedOutputNames
      modifies this`outputSubscribers, this`activeTokens, this`nextToken
      ensures Valid()
      ensures AddedSoFar(instance, names, outputs, added, old(outputSubscribers), old(activeTokens), old(nextToken),
                         outputSubscribers, activeTokens, nextToken)
    {
      ghost var subs0, act0, next0 := outputSubscribers, activeTokens, nextToken;
      AddedNothing(instance, names, outputs, added, subs0, act0, next0);
      var todo := added;
      while todo != {}
        invariant todo <= added
        invariant Valid()
        invariant AddedSoFar(instance, names, outputs, added - todo, subs0, act0, next0,
                             outputSubscribers, activeTokens, nextToken)
        decreases todo
      {
        var key :| key in todo;
        ghost var subs, act, next := outputSubscribers, activeTokens, nextToken;
        SetOutput(outputs[key]);
        KeysStep(added, todo, key);
        AddedStep(instance, names, outputs, added - todo, key, subs0, act0, next0,
                  subs, act, next, outputSubscribers, activeTokens, nextToken);
        todo := todo - {key};
      }
      assert added - todo == added;
    }

    /** `forEachRemovedItem` of the output diff: a subscription stored under a
        removed key is unsubscribed, but its entry stays in the table. */
    method ForEachRemovedOutput(removed: set<string>)
      requires Valid()
      modifies this`activeTokens
      ensures Valid()
      ensures activeTokens == old(activeTokens) - TokensUnder(outputSubscribers, removed)
    {
      var todo := removed;
      while todo != {}
        invariant todo <= removed
        invariant Valid()
        invariant activeTokens == old(activeTokens) - TokensUnder(outputSubscribers, removed - todo)
        decreases todo
      {
        var key :| key in todo;
        if key in outputSubscribers {
          activeTokens := activeTokens - {outputSubscribers[key]};
          assert TokensUnder(outputSubscribers, removed - (todo - {key})) == TokensUnder(outputSubscribers, removed - todo) + {outputSubscribers[key]};
        } else {
          assert TokensUnder(outputSubscribers, removed - (todo - {key})) == TokensUnder(outputSubscribers, removed - todo);
        }
        todo := todo - {key};
      }
    }

    /** The input half of `update`: diffs the inputs, then passes the added,
        the changed and the removed records, one batch after the other, to
        `setInput`; the model runs each batch through `SetInputs`. */
    method UpdateInputs(content: Spec) returns (ghost calls: seq<InputWrite>)
      modifies this`inputDiffer, this`appliedInputs, this`inputLog
      ensures inputDiffer == content.inputs
      ensures inputLog == old(inputLog) + calls
      ensures Issued(old(appliedInputs), appliedInputs,
                     Restrict(InputDelta(old(inputDiffer), content.inputs), old(componentData).allowedInputNames),
                     calls)
    {
      ghost var names := componentData.allowedInputNames;
      ghost var prev, log0, applied0 := inputDiffer, inputLog, appliedInputs;
      var inputDiff := DiffInputs(content);
      if inputDiff.None? {
        IssuedNoDiff(applied0, prev, content.inputs, names);
        return [];
      }
      var d := inputDiff.value;
      ghost var c1 := SetInputs(Restrict(content.inputs, d.added), names);
      ghost var applied1, log1 := appliedInputs, inputLog;
      ghost var c2 := SetInputs(Restrict(content.inputs, d.changed), names);
      ghost var applied2, log2 := appliedInputs, inputLog;
      ghost var c3 := SetInputs(UndefinedAt(d.removed), names);
      IssuedDelta(prev, content.inputs, d, names, applied0, applied1, applied2, appliedInputs, c1, c2, c3);
      calls := c1 + c2 + c3;
      LogThen(log0, log1, log2, inputLog, c1, c2, c3);
    }

    /** The output half of `update` after the diff: subscribe what was
        added, release what was removed; nothing when the outputs did not
        change. */
    method ApplyOutputDiff(outputs: map<string, Value>, diff: Option<MapDiff>,
                           ghost names: set<string>, ghost prev: map<string, Value>)
      requires Valid()
      requires names == componentData.allowedOutputNames && ShallowDiff(prev, outputs) == diff
      modifies this`outputSubscribers, this`activeTokens, this`nextToken
      ensures Valid()
      ensures OutputsFollowDiff(instance, names, prev, outputs, old(outputSubscribers), old(activeTokens), old(nextToken),
                                outputSubscribers, activeTokens, nextToken)
    {
      ghost var subs0, act0, next0 := outputSubscribers, activeTokens, nextToken;
      if diff.None? {
        OutputsFollowNoDiff(instance, names, prev, outputs, subs0, act0, next0);
        return;
      }
      var d := diff.value;
      ForEachAddedOutput(d.added, outputs, names);
      ghost var act1 := activeTokens;
      ForEachRemovedOutput(d.removed);
      OutputsFollowFromSteps(instance, names, prev, outputs, d, subs0, act0, next0,
                             outputSubscribers, act1, nextToken, activeTokens);
    }

    /** The output half of `update`: diffs the outputs, subscribes for added
        items and unsubscribes removed ones, then makes `content` the spec. */
    method UpdateOutputs(content: Spec, ghost names: set<string>, ghost prev: map<string, Value>,
                         ghost subs0: map<string, Token>, ghost act0: set<Token>, ghost next0: Token)
      requires Valid()
      requires names == componentData.allowedOutputNames && prev == outputDiffer
      requires subs0 == outputSubscribers && act0 == activeTokens && next0 == nextToken
      modifies this`componentData, this`outputDiffer, this`outputSubscribers, this`activeTokens, this`nextToken
      ensures Valid()
      ensures componentData == content
      ensures outputDiffer == content.outputs
      ensures OutputsFollowDiff(instance, names, prev, content.outputs, subs0, act0, next0,
                                outputSubscribers, activeTokens, nextToken)
    {
      var outputDiff := DiffOutputs(content);
      ApplyOutputDiff(content.outputs, outputDiff, names, prev);
      ghost var subs, act, nt := outputSubscribers, activeTokens, nextToken;
      assert OutputsFollowDiff(instance, names, prev, content.outputs, subs0, act0, next0, subs, act, nt);
      componentData := content;
    }

    /** What `update` does once the component type matched. */
    method ApplyUpdate(content: Spec) returns (ghost inputCalls: seq<InputWrite>)
      requires Valid()
      modifies this`componentData, this`inputDiffer, this`outputDiffer, this`appliedInputs,
               this`inputLog, this`outputSubscribers, this`activeTokens, this`nextToken
      ensures Valid()
      ensures componentData == content && inputDiffer == content.inputs && outputDiffer == content.outputs
      ensures inputLog == old(inputLog) + inputCalls
      ensures Issued(old(appliedInputs), appliedInputs,
                     Restrict(InputDelta(old(inputDiffer), content.inputs), old(componentData).allowedInputNames),
                     inputCalls)
      ensures OutputsFollowDiff(instance, old(componentData).allowedOutputNames, old(outputDiffer), content.outputs,
                                old(outputSubscribers), old(activeTokens), old(nextToken),
                                outputSubscribers, activeTokens, nextToken)
    {
      ghost var names, prev := componentData.allowedOutputNames, outputDiffer;
      ghost var subs0, act0, next0 := outputSubscribers, activeTokens, nextToken;
      inputCalls := UpdateInputs(content);
      UpdateOutputs(content, names, prev, subs0, act0, next0);
    }

    /** Brings the component in line with `content` when it has the same
        component type: input writes for what changed, subscriptions for added
        outputs, unsubscriptions for removed ones, all checked against the
        previous spec's allow-lists, and only then `content` becomes the spec. */
    method Update(content: Spec) returns (ghost inputCalls: seq<InputWrite>)
      requires Valid()
      modifies this`componentData, this`inputDiffer, this`outputDiffer, this`appliedInputs,
               this`inputLog, this`outputSubscribers, this`activeTokens, this`nextToken
      ensures Valid()
      ensures !old(EqType(content)) ==> unchanged(this) && inputCalls == []
      ensures old(EqType(content)) ==>
        componentData == content && inputDiffer == content.inputs && outputDiffer == content.outputs
      // inputs
      ensures inputLog == old(inputLog) + inputCalls
      ensures old(EqType(content)) ==>
        Issued(old(appliedInputs), appliedInputs,
               Restrict(InputDelta(old(inputDiffer), content.inputs), old(componentData).allowedInputNames),
               inputCalls)
      // outputs
      ensures old(EqType(content)) ==>
        OutputsFollowDiff(instance, old(componentData).allowedOutputNames, old(outputDiffer), content.outputs,
                          old(outputSubscribers), old(activeTokens), old(nextToken),
                          outputSubscribers, activeTokens, nextToken)
    {
      inputCalls := [];
      var eq := EqType(content);
      if !eq {
        return;
      }
      inputCalls := ApplyUpdate(content);
    }
  }
}
