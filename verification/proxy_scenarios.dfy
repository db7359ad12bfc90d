/**
  Whole runs of the table proxy: reads through the `get` trap and calls of
  the wrappers it installs.
 */
module ProxyScenarios {
  import opened Js
  import opened Proxy

  /** The first read of an eligible accessor installs a wrapper, and every
      later read returns that same wrapper, whatever the table snapshot is
      by then. */
  method ReadsAfterInstallAreStable(signalProps: map<string, Prop>, invoke: (nat, Args) -> Value,
                                    stringify: Args -> string, name: string,
                                    table1: map<string, Value>, table2: map<string, Value>)
    returns (first: Prop, second: Prop)
    requires name != "options" && !PropTruthy(Lookup(signalProps, name))
    requires name in table1 && table1[name].Fn? && StartsWith(name, "get")
    ensures first.Wrapper? && first.w.fn == table1[name].fid
    ensures second == first
  {
    var proxy := new TableProxy(signalProps, invoke, stringify);
    CanTransformIsGetPrefix(name);
    first := proxy.Get(name, table1);
    second := proxy.Get(name, table2);
  }

  /** A name the table snapshot does not have is answered from the signal
      and installs nothing. */
  method AbsentPropertyMaterializesNothing(signalProps: map<string, Prop>, invoke: (nat, Args) -> Value,
                                           stringify: Args -> string, name: string, table: map<string, Value>)
    returns (r: Prop, after: map<string, Prop>)
    requires name != "options" && name !in table
    ensures r == Lookup(signalProps, name)
    ensures after == signalProps["options" := OptionsSignal]
  {
    var proxy := new TableProxy(signalProps, invoke, stringify);
    r := proxy.Get(name, table);
    after := proxy.target;
  }

  /** `options` is served from the signal, whatever the table holds under
      that name. */
  method OptionsServedFromTarget(signalProps: map<string, Prop>, invoke: (nat, Args) -> Value,
                                 stringify: Args -> string, table: map<string, Value>)
    returns (r: Prop)
    ensures r == OptionsSignal
  {
    var proxy := new TableProxy(signalProps, invoke, stringify);
    r := proxy.Get("options", table);
  }

  /** Calling a wrapper with `a1`, then `a2`, then `a1` again: two computeds
      are made, the accessor runs once per argument list, and the third call
      returns the first call's value. */
  method MemoizedPerArguments(fn: nat, invoke: (nat, Args) -> Value, stringify: Args -> string, a1: Args, a2: Args)
    returns (x1: Value, x2: Value, x3: Value, calls: seq<Args>)
    requires SerializeArgs(stringify, a1) != SerializeArgs(stringify, a2)
    ensures x1 == invoke(fn, a1) && x2 == invoke(fn, a2) && x3 == x1
    ensures calls == [a1, a2]
  {
    var computedFunction := new ComputedFunction(fn, invoke, stringify);
    x1 := computedFunction.Call(a1);
    x2 := computedFunction.Call(a2);
    x3 := computedFunction.Call(a1);
    calls := computedFunction.invocations;
  }

  /** Two argument lists with the same serialization share one computed:
      the second call gets the value computed for the first list and the
      accessor is not called for the second. */
  method SameKeySharesResult(fn: nat, invoke: (nat, Args) -> Value, stringify: Args -> string, a1: Args, a2: Args)
    returns (x1: Value, x2: Value, calls: seq<Args>)
    requires SerializeArgs(stringify, a1) == SerializeArgs(stringify, a2)
    ensures x1 == invoke(fn, a1) && x2 == x1
    ensures calls == [a1]
  {
    var computedFunction := new ComputedFunction(fn, invoke, stringify);
    x1 := computedFunction.Call(a1);
    x2 := computedFunction.Call(a2);
    calls := computedFunction.invocations;
  }
}
