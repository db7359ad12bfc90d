# Angular adapter of TanStack Table: component refs and the table proxy

This project models two pieces of bookkeeping in the Angular binding of
TanStack Table (`packages/angular-table`), and proves what they do.

**`FlexRenderComponentRef`** (`flex-render/flex-render-component-ref.ts`) keeps a
dynamically created component in step with the render spec a table cell
supplies. A spec (`FlexRenderComponent`) names a component type, the inputs
and outputs to bind, and allow-lists of input and output names. The ref holds
two key-value differs, each seeded with the spec it was created for. `update`
is gated on the component type. On a match it does the following:

- It diffs the new inputs and writes every added or changed value, plus
  `undefined` for every removed key, through `setInput`.
- It diffs the new outputs, subscribes added ones through `setOutput` and
  unsubscribes removed ones.
- It replaces `componentData` last.

Every write is filtered by the allow-lists of the previous spec. The
`outputSubscribers` table is also filled and emptied by `setOutputs`,
`unsubscribeOutput` and `unsubscribeOutputs`; the last of these runs when the
component is destroyed.

The model is the class `FlexRender.FlexRenderComponentRef` (file
`flex_render_component_ref.dfy`):

- Each differ is the map it saw last, and `ShallowDiff` computes the added,
  changed and removed keys.
- The component's inputs are a map (`appliedInputs`), and every `setInput` call
  that reaches the component is appended to `inputLog`.
- Subscriptions are tokens handed out by a counter. `outputSubscribers` maps
  names to tokens, and `activeTokens` holds the tokens not yet unsubscribed.

Two behaviours of the code are modelled as written:

- The added-output branch of `update` passes the output's value (a callback),
  not its key, to `setOutput` as the name.
- A removed output is unsubscribed but keeps its entry in `outputSubscribers`.

**`proxifyTable`** (`proxy.ts`) wraps the table signal in a `Proxy` whose `get`
trap does three things:

- It serves truthy properties of the signal itself.
- It falls back to the current table snapshot.
- The first time an accessor whose name passes `canTransformPropertyToComputed`
  is read, it installs on the signal a wrapper made by `toComputed`.

The wrapper memoizes one computed per serialized argument list
(`serializeArgs`, that is `JSON.stringify`). The model (file `proxy.dfy`) has two
classes. `Proxy.TableProxy` is the proxy, with the signal's properties as a map
and the snapshot passed to each read. `Proxy.ComputedFunction` is the wrapper,
with its `computedCache` and the log of calls of the original accessor.

The methods of the modules `FlexRenderScenarios` and `ProxyScenarios` make whole
sequences of calls on fresh objects in their bodies, for arbitrary names and
values, and Dafny verifies their contracts. Those contracts state what such a
sequence ends with: which `setInput` calls reached the component,
which names hold subscriptions and which of those are still live, and what a
read through the proxy returns and how often the accessor ran.

## Model

Source paths are relative to the repository root.

| member | source | states |
|---|---|---|
| FlexRender.ShallowDiff | packages/angular-table/src/flex-render/flex-render-component-ref.ts:78-87 | there is no diff exactly when the new map equals the map the differ saw last; otherwise the added, changed and removed keys are pairwise disjoint |
| FlexRender.DiffPatchRoundTrip | packages/angular-table/src/flex-render/flex-render-component-ref.ts:78-87 | the diff is complete: patching the previous map with the added and changed values and dropping the removed keys gives the new map |
| FlexRender.DeltaFromDiff | packages/angular-table/src/flex-render/flex-render-component-ref.ts:104-113 | the added, changed and removed records have disjoint keys and together call for exactly the writes of `InputDelta`; with no diff nothing is to be written |
| FlexRender.InputDeltaWritesExactlyChanges | packages/angular-table/src/flex-render/flex-render-component-ref.ts:104-113 | a key is written if and only if it was added, removed or changed its value; added and changed keys get their new value and removed keys get `undefined` |
| FlexRender.SameInputsNoWrites | packages/angular-table/src/flex-render/flex-render-component-ref.ts:104-113 | updating with the inputs the differ saw last writes nothing |
| FlexRender.InputsFollowSpec | packages/angular-table/src/flex-render/flex-render-component-ref.ts:104-113 | when every name involved is allowed and the component held the previous inputs, after the writes of an update it holds every new input's value and `undefined` under every removed key |
| FlexRender.IssuedNoDiff | packages/angular-table/src/flex-render/flex-render-component-ref.ts:104-105 | with no input diff the (empty) batch of writes is issued by no call |
| FlexRender.IssuedDelta | packages/angular-table/src/flex-render/flex-render-component-ref.ts:104-113 | the three record loops, run one after the other, write each allowed key of `InputDelta` exactly once with its value, and leave the inputs updated by it |
| FlexRender.Includes | packages/angular-table/src/flex-render/flex-render-component-ref.ts:168 | the allow-list test on an output name: only a string that is in the list passes; a callback never does |
| FlexRender.Subscribable | packages/angular-table/src/flex-render/flex-render-component-ref.ts:168-173 | whether `setOutput` subscribes: the name passes the allow-list and the instance holds an emitter under it |
| FlexRender.CallbackOutputsNeverSubscribe | packages/angular-table/src/flex-render/flex-render-component-ref.ts:117-123 | an added output whose value is a callback never subscribes, whatever the allow-list and the instance |
| FlexRender.SameOutputsNoChange | packages/angular-table/src/flex-render/flex-render-component-ref.ts:115-129 | updating with the outputs the differ saw last leaves the table, the live subscriptions and the counter unchanged |
| FlexRender.CallbackOutputsOnlyRelease | packages/angular-table/src/flex-render/flex-render-component-ref.ts:115-129 | when all outputs are callbacks, the output half of `update` keeps the table as it was, removed names included, subscribes nothing, and only releases the tokens stored under removed keys |
| FlexRender.FlexRenderComponentRef.constructor | packages/angular-table/src/flex-render/flex-render-component-ref.ts:46-65 | both differs are seeded with the initial spec's inputs and outputs; no input is set and the subscription table is empty |
| FlexRender.FlexRenderComponentRef.EqType | packages/angular-table/src/flex-render/flex-render-component-ref.ts:93-95 | the type gate: true exactly when the new spec names the component type of the spec held now |
| FlexRender.FlexRenderComponentRef.DiffInputs | packages/angular-table/src/flex-render/flex-render-component-ref.ts:78-80 | returns the shallow diff against the inputs seen last and advances the differ to the new inputs |
| FlexRender.FlexRenderComponentRef.DiffOutputs | packages/angular-table/src/flex-render/flex-render-component-ref.ts:85-87 | returns the shallow diff against the outputs seen last and advances the differ to the new outputs |
| FlexRender.FlexRenderComponentRef.SetInput | packages/angular-table/src/flex-render/flex-render-component-ref.ts:180-184 | an allowed key is written to the component and logged; otherwise neither the inputs nor the log change |
| FlexRender.FlexRenderComponentRef.SetInputs | packages/angular-table/src/flex-render/flex-render-component-ref.ts:138-142 | each allowed key of the map is written exactly once with its value, the log grows by exactly those calls, and the inputs become the old ones overridden by the allowed part of the map |
| FlexRender.FlexRenderComponentRef.SetOutput | packages/angular-table/src/flex-render/flex-render-component-ref.ts:167-178 | with an allowed string name and an emitter under it, a fresh token is stored under the name, overwriting any entry without releasing it; otherwise nothing changes |
| FlexRender.FlexRenderComponentRef.UnsubscribeOutput | packages/angular-table/src/flex-render/flex-render-component-ref.ts:150-155 | a present name is released and deleted, with every other entry left as it was; an absent name changes nothing |
| FlexRender.FlexRenderComponentRef.UnsubscribeOutputs | packages/angular-table/src/flex-render/flex-render-component-ref.ts:144-148 | the table ends empty and exactly the tokens it held are released |
| FlexRender.FlexRenderComponentRef.Destroy | packages/angular-table/src/flex-render/flex-render-component-ref.ts:62-64 | the destroy hook empties the table and releases every token it held |
| FlexRender.FlexRenderComponentRef.SetOutputs | packages/angular-table/src/flex-render/flex-render-component-ref.ts:157-165 | the old subscriptions are released; then the table holds exactly the allowed names that have an emitter, each with a token not below the old counter; different names hold different tokens; the counter advances by one per entry, and exactly the tokens it handed out are live besides the earlier ones not released |
| FlexRender.FlexRenderComponentRef.ForEachAddedOutput | packages/angular-table/src/flex-render/flex-render-component-ref.ts:117-123 | every added key whose value names an allowed emitter adds one fresh token, stored under that value; other entries are untouched |
| FlexRender.FlexRenderComponentRef.ForEachRemovedOutput | packages/angular-table/src/flex-render/flex-render-component-ref.ts:124-128 | the tokens stored under removed keys are released and the table is left as it is |
| FlexRender.FlexRenderComponentRef.UpdateInputs | packages/angular-table/src/flex-render/flex-render-component-ref.ts:104-113 | the input differ advances, and the writes issued are exactly the allowed part of `InputDelta`, each key once, checked against the previous spec's allow-list |
| FlexRender.FlexRenderComponentRef.ApplyOutputDiff | packages/angular-table/src/flex-render/flex-render-component-ref.ts:116-129 | the subscription state after the added and removed records is the one `OutputsFollowDiff` describes |
| FlexRender.FlexRenderComponentRef.UpdateOutputs | packages/angular-table/src/flex-render/flex-render-component-ref.ts:115-131 | the output differ advances, the subscriptions follow the output diff under the previous allow-list, and `componentData` becomes the new spec last |
| FlexRender.FlexRenderComponentRef.ApplyUpdate | packages/angular-table/src/flex-render/flex-render-component-ref.ts:104-131 | both halves of a same-type update, with every allow-list check made against the previous spec |
| FlexRender.FlexRenderComponentRef.Update | packages/angular-table/src/flex-render/flex-render-component-ref.ts:100-132 | with another component type nothing changes and nothing is written; otherwise the inputs and outputs follow their diffs and the new spec is stored |
| FlexRenderScenarios.Mount | packages/angular-table/src/flex-render/flex-render-component-ref.ts:46-65 | a fresh ref with one output bound by name holds token 0 under it and nothing else |
| FlexRenderScenarios.ChangedInputOnly | packages/angular-table/src/flex-render/flex-render-component-ref.ts:104-113 | when input `b` changes and `a` keeps its value, the only write is `setInput(b, newValue)` |
| FlexRenderScenarios.OnlyOneChanges | packages/angular-table/src/flex-render/flex-render-component-ref.ts:104-113 | of two inputs only the changed one is in the delta |
| FlexRenderScenarios.SwappedCallbackKeepsSubscription | packages/angular-table/src/flex-render/flex-render-component-ref.ts:115-129 | swapping the callback of a subscribed output neither releases nor renews its subscription |
| FlexRenderScenarios.UpdateAgainIsSilent | packages/angular-table/src/flex-render/flex-render-component-ref.ts:100-132 | a second `update` with the same spec writes nothing and leaves the subscriptions as they were, for any specs and instance |
| FlexRenderScenarios.AddedOutputIsNotSubscribed | packages/angular-table/src/flex-render/flex-render-component-ref.ts:117-123 | an output added by `update` is not subscribed even when its key is allowed and has an emitter, while `setOutputs` with the same map subscribes it |
| FlexRenderScenarios.UnsubscribeOneKeepsOther | packages/angular-table/src/flex-render/flex-render-component-ref.ts:150-165 | after `setOutputs` binds two emitter outputs, unsubscribing one removes only its entry and leaves the other subscribed |
| FlexRenderScenarios.RemovedOutputStaysInTable | packages/angular-table/src/flex-render/flex-render-component-ref.ts:124-128 | an output removed by `update` is released but keeps its entry; destroying the ref empties the table |
| Proxy.SerializeArgs | packages/angular-table/src/proxy.ts:104-106 | the cache key of an argument list is the serializer applied to the whole list; the serializer is a parameter and need not be injective |
| Proxy.CanTransformPropertyToComputed | packages/angular-table/src/proxy.ts:108-113 | the eligibility test as written: a `get` prefix, and not ending with both "Handler" and "Model" |
| Proxy.CanTransformIsGetPrefix | packages/angular-table/src/proxy.ts:108-113 | the eligibility predicate holds exactly for names starting with `get`, because no name ends with both "Handler" and "Model" |
| Proxy.HandlersAreTransformed | packages/angular-table/src/proxy.ts:108-113 | names starting with `get` and ending with "Handler" are eligible, so handlers are not excluded |
| Proxy.ComputedFunction.constructor | packages/angular-table/src/proxy.ts:70-74 | a new wrapper has an empty cache and has not called the accessor |
| Proxy.ComputedFunction.Call | packages/angular-table/src/proxy.ts:76-92 | a known key adds nothing, calls nothing and returns the stored value; a new key adds exactly one entry, built from these arguments, and calls the accessor once; the cache never shrinks, and the result is always the accessor's value for the arguments stored under the key |
| Proxy.TableProxy.constructor | packages/angular-table/src/proxy.ts:54-56 | `options` is put on the signal through the proxy |
| Proxy.TableProxy.Get | packages/angular-table/src/proxy.ts:26-51 | a truthy own property is returned and nothing changes; a name the snapshot lacks is read from the signal; an eligible accessor gets a fresh, empty wrapper installed and returned; any other name returns the table's value and installs nothing |
| ProxyScenarios.ReadsAfterInstallAreStable | packages/angular-table/src/proxy.ts:28-46 | after a wrapper is installed, later reads return that same wrapper whatever the table snapshot is |
| ProxyScenarios.AbsentPropertyMaterializesNothing | packages/angular-table/src/proxy.ts:31-34 | a name missing from the snapshot is answered from the signal and the signal is unchanged |
| ProxyScenarios.OptionsServedFromTarget | packages/angular-table/src/proxy.ts:54-56 | `options` is always served from the signal |
| ProxyScenarios.MemoizedPerArguments | packages/angular-table/src/proxy.ts:76-92 | calls with `a1`, `a2` and `a1` run the accessor once per argument list, and the third call returns the first call's value |
| ProxyScenarios.SameKeySharesResult | packages/angular-table/src/proxy.ts:104-106 | argument lists with the same serialization share one computed: the second gets the first's value and the accessor is not called again |
| Proxy.IntendedExcludesHandlersAndModels | packages/angular-table/src/proxy.ts:108-113 | the intended test (the `&&` of the two negated suffix tests at proxy.ts:111) rejects every name ending in "Handler" or "Model", and differs from the test as written on exactly the `get` names with those endings |

## Findings

| source | as written | input that shows it | evidently intended | confidence | as-written member | corrected member |
|---|---|---|---|---|---|---|
| packages/angular-table/src/proxy.ts:111 | the suffix clause, "does not end with Handler, or does not end with Model", holds for every name, so handlers and row models are wrapped like other accessors | any name such as `getToggleAllRowsSelectedHandler` | `&&`: names ending in "Handler" are excluded, as the comment at proxy.ts:36-38 says, and names ending in "Model" too, as the code's own `endsWith('Model')` test at proxy.ts:111 says; the comment names only handlers | high; not executed | Proxy.HandlersAreTransformed | Proxy.IntendedExcludesHandlersAndModels |

The model of the `get` trap keeps the test as written, since that is what the
proxy does.

## Left out

- The order in which `for…in` and the differ's `forEach…Item` visit keys is not modelled. Loops take keys in an unspecified order.
- FlexRender.FlexRenderComponentRef.SetInputs: states each key's write and the resulting inputs, not the order of the calls in the log, which depends on the key order above.
- FlexRender.FlexRenderComponentRef.UpdateInputs: same as `SetInputs`; the order of the writes is not stated.
- FlexRender.FlexRenderComponentRef.SetOutputs: states which names hold tokens and the range the tokens come from, not which name got which token, because that depends on the key order.
- FlexRender.FlexRenderComponentRef.ForEachAddedOutput: same as `SetOutputs`; only the range the new tokens come from is stated.
- The callbacks behind subscriptions and the delivery of emitted values are not modelled. A subscription is an opaque token that is either live or released.
- Changed outputs: `update` has no branch for them, and the model follows the code. The subscription is neither released nor renewed. Which callback it calls afterwards is not modelled; the code's closure reads the outputs map given when it subscribed.
- Angular's `KeyValueDiffers` is replaced by "the map seen last" plus a shallow diff that compares values by identity. NaN, `-0` and non-integer numbers are not represented.
- The getters `component` and `inputs` are read directly. An absent `inputs` or `outputs` is the empty map, as `?? {}` makes it.
- `FlexRenderComponentFactory.createComponent`, `markAsDirty`, `componentRef.setInput` and `onDestroy` are calls into Angular. The model keeps only their effect on the ref's state.
- Properties inherited through prototypes are not modelled: `in` on a plain object, and names such as `toString`.
- Angular signals are not modelled. A computed is a value cached when it is made; its re-evaluation when the table changes is framework scheduling. The accessor's result is a function parameter (`invoke`), and the snapshot `untracked(target)` is a parameter of each read.
- Proxy.ComputedFunction.Call: the accessor is total in the model (`invoke`). In the source a new key's computed is stored in `computedCache` (proxy.ts:89) before it is evaluated (proxy.ts:91), so an accessor that throws leaves its entry cached, and later calls with that key read the same computed (proxy.ts:78-79) and fail again; the model cannot express a failing call.
- `JSON.stringify` is a parameter (`stringify`) and is not assumed to be injective. It is also total in the model. The real call throws on circular arguments and on BigInt values, and the wrapper then throws before it reads or writes `computedCache` (proxy.ts:77).
- The `__cache` property that `toComputed` defines on the wrapper (proxy.ts:94-99) is not modelled; the cache is the wrapper's `computedCache` field.
- The JS `Proxy` machinery, symbol keys and property attributes of `Object.defineProperty` are not modelled. The value of the `options` computed is opaque (`OptionsSignal`).
- packages/react-table/src/tableHelper.ts and packages/angular-table/vite.config.ts are not part of this model.
