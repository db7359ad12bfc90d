/**
  The table proxy of the Angular adapter (`proxifyTable`): a property-read
  interceptor over the table signal. It serves what is stored on the signal
  itself, and the first read of a table accessor whose name starts with
  `get` installs a memoizing wrapper for it on the signal.
 */
module Proxy {
  import opened Js

  /** The argument list of one accessor call. */
  type Args = seq<Value>

  /** `serializeArgs`: the cache key of an argument list, `JSON.stringify`
      of the list. The serializer is a parameter and is not assumed to be
      injective. */
  function SerializeArgs(stringify: Args -> string, args: Args): string
  {
    stringify(args)
  }

  /** `canTransformPropertyToComputed`, as written: a `get` prefix, and not
      ending with both "Handler" and "Model". */
  predicate CanTransformPropertyToComputed(propertyName: string)
  {
    StartsWith(propertyName, "get") &&
    (!EndsWith(propertyName, "Handler") || !EndsWith(propertyName, "Model"))
  }

  /** No name ends with both "Handler" and "Model" (their last letters
      differ), so the second clause never excludes anything: the predicate
      is exactly the `get` prefix. */
  lemma CanTransformIsGetPrefix(propertyName: string)
    ensures CanTransformPropertyToComputed(propertyName) <==> StartsWith(propertyName, "get")
  {
    if EndsWith(propertyName, "Handler") && EndsWith(propertyName, "Model") {
      EndsWithLastChar(propertyName, "Handler");
      EndsWithLastChar(propertyName, "Model");
    }
  }

  /** In particular event handlers such as `getToggleAllRowsSelectedHandler`
      are wrapped like any other accessor. */
  lemma HandlersAreTransformed(propertyName: string)
    requires StartsWith(propertyName, "get") && EndsWith(propertyName, "Handler")
    ensures CanTransformPropertyToComputed(propertyName)
  {
    EndsWithLastChar(propertyName, "Handler");
    if EndsWith(propertyName, "Model") {
      EndsWithLastChar(propertyName, "Model");
    }
  }

  /** The evidently intended eligibility test: a `get` prefix, excluding
      handlers, as the comment in the `get` trap says, and excluding names
      ending in "Model", as the code's own second suffix test says (the
      comment names only handlers). */
  predicate CanTransformIntended(propertyName: string)
  {
    StartsWith(propertyName, "get") &&
    !EndsWith(propertyName, "Handler") && !EndsWith(propertyName, "Model")
  }

  /** The intended test rejects every handler and row model, and it differs
      from the test as written on exactly those `get` names. */
  lemma IntendedExcludesHandlersAndModels(propertyName: string)
    ensures EndsWith(propertyName, "Handler") || EndsWith(propertyName, "Model") ==>
      !CanTransformIntended(propertyName)
    ensures CanTransformPropertyToComputed(propertyName) && !CanTransformIntended(propertyName) <==>
      StartsWith(propertyName, "get") && (EndsWith(propertyName, "Handler") || EndsWith(propertyName, "Model"))
  {
    CanTransformIsGetPrefix(propertyName);
  }

  // ---------------------------------------------------------------------
  // toComputed
  // ---------------------------------------------------------------------

  /** One entry of `computedCache`: the computed made for the first call
      whose arguments serialized to the entry's key, with those arguments
      and the value the accessor returned for them. */
  datatype Computed = Computed(args: Args, value: Value)

  /** The function `toComputed` returns for the accessor `fn`. Calling the
      accessor is `invoke(fn, args)`, for the table state the model holds
      fixed. */
  class ComputedFunction {
    const fn: nat
    const invoke: (nat, Args) -> Value
    const stringify: Args -> string
    var computedCache: map<string, Computed>
    /** The calls of the original accessor, in order. */
    var invocations: seq<Args>

    /** Each entry sits under the key of its own arguments and holds the
        accessor's value for them, and the accessor was called once per entry. */
    ghost predicate Valid()
      reads this`computedCache, this`invocations
    {
      && |computedCache| == |invocations|
      && (forall key :: key in computedCache ==>
            && SerializeArgs(stringify, computedCache[key].args) == key
            && computedCache[key].value == invoke(fn, computedCache[key].args))
    }

    /** `toComputed(signal, fn)`: an empty cache; nothing is called yet. */
    constructor (fn: nat, invoke: (nat, Args) -> Value, stringify: Args -> string)
      ensures Valid()
      ensures this.fn == fn && this.invoke == invoke && this.stringify == stringify
      ensures computedCache == map[] && invocations == []
    {
      this.fn := fn;
      this.invoke := invoke;
      this.stringify := stringify;
      computedCache := map[];
      invocations := [];
    }

    /** A call of the wrapper: a known key is answered from its computed
        without calling the accessor; a new key gets one new computed, built
        from these arguments, and the accessor is called once. The result is
        always the accessor's value for the arguments cached under the key. */
    method Call(args: Args) returns (r: Value)
      requires Valid()
      modifies this`computedCache, this`invocations
      ensures Valid()
      ensures SerializeArgs(stringify, args) in computedCache
      ensures r == invoke(fn, computedCache[SerializeArgs(stringify, args)].args)
      ensures SerializeArgs(stringify, args) in old(computedCache) ==>
        && computedCache == old(computedCache) && invocations == old(invocations)
        && r == old(computedCache)[SerializeArgs(stringify, args)].value
      ensures SerializeArgs(stringify, args) !in old(computedCache) ==>
        && computedCache == old(computedCache)[SerializeArgs(stringify, args) := Computed(args, invoke(fn, args))]
        && invocations == old(invocations) + [args]
        && r == invoke(fn, args)
    {
      var serializedArgs := SerializeArgs(stringify, args);
      if serializedArgs in computedCache {
        r := computedCache[serializedArgs].value;
        return;
      }
      var computedSignal := Computed(args, invoke(fn, args));
      computedCache := computedCache[serializedArgs := computedSignal];
      invocations := invocations + [args];
      r := computedSignal.value;
    }
  }

  // ---------------------------------------------------------------------
  // proxifyTable
  // ---------------------------------------------------------------------

  /** A property of the table signal: a plain value, a wrapper installed by
      the `get` trap, or the `options` computed. */
  datatype Prop = Plain(v: Value) | Wrapper(w: ComputedFunction) | OptionsSignal

  /** Wrappers and signals are functions, hence truthy. */
  predicate PropTruthy(p: Prop)
  {
    match p
    case Plain(v) => Truthy(v)
    case _ => true
  }

  /** Reading a property: `undefined` when it is absent. */
  function Lookup(props: map<string, Prop>, name: string): Prop
  {
    if name in props then props[name] else Plain(Undefined)
  }

  /** The proxy over the table signal. `target` holds the signal's own
      properties; the table snapshot is passed to each read. */
  class TableProxy {
    var target: map<string, Prop>
    const invoke: (nat, Args) -> Value
    const stringify: Args -> string

    /** `options` stays on the target. */
    ghost predicate Valid()
      reads this`target
    {
      "options" in target && target["options"] == OptionsSignal
    }

    /** `proxifyTable(tableSignal)`: the proxy, with `options` assigned
        through it onto the signal. */
    constructor (signalProps: map<string, Prop>, invoke: (nat, Args) -> Value, stringify: Args -> string)
      ensures Valid()
      ensures target == signalProps["options" := OptionsSignal]
      ensures this.invoke == invoke && this.stringify == stringify
    {
      target := signalProps["options" := OptionsSignal];
      this.invoke := invoke;
      this.stringify := stringify;
    }

    /** The `get` trap for `name`, with `table` the current table snapshot. */
    method Get(name: string, table: map<string, Value>) returns (r: Prop)
      requires Valid()
      modifies this`target
      ensures Valid()
      // a truthy property of the signal is served as it is
      ensures PropTruthy(Lookup(old(target), name)) ==>
        r == old(target)[name] && target == old(target)
      // a name the table does not have is read from the signal
      ensures !PropTruthy(Lookup(old(target), name)) && name !in table ==>
        r == Lookup(old(target), name) && target == old(target)
      // an eligible accessor gets a fresh wrapper installed and returned
      ensures !PropTruthy(Lookup(old(target), name)) && name in table &&
              CanTransformPropertyToComputed(name) && table[name].Fn? ==>
        && r.Wrapper? && fresh(r.w) && r.w.Valid()
        && r.w.fn == table[name].fid && r.w.invoke == invoke && r.w.stringify == stringify
        && r.w.computedCache == map[] && r.w.invocations == []
        && target == old(target)[name := r]
      // anything else is the table's own value, and nothing is installed
      ensures !PropTruthy(Lookup(old(target), name)) && name in table &&
              !(CanTransformPropertyToComputed(name) && table[name].Fn?) ==>
        r == Plain(table[name]) && target == old(target)
    {
      if PropTruthy(Lookup(target, name)) {
        return target[name];
      }
      if name !in table {
        return Lookup(target, name);
      }
      if CanTransformPropertyToComputed(name) {
        var maybeFn := table[name];
        if maybeFn.Fn? {
          var wrapper := new ComputedFunction(maybeFn.fid, invoke, stringify);
          target := target[name := Wrapper(wrapper)];
        }
      }
      r := if PropTruthy(Lookup(target, name)) then target[name] else Plain(table[name]);
    }
  }
}
