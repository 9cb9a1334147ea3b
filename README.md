# esbuild-plugin-filter-callback, modelled in Dafny

`esbuild-plugin-filter-callback` wraps an esbuild plugin (the *delegate*) so
that its `onResolve` and `onLoad` callbacks only run for candidates that a
caller-supplied predicate accepts. The module exports one factory,
`filterCallback({plugin, filter})`. It returns a plugin named
`filter-callback(<plugin.name>)`. That plugin's `setup(build)` does three
things:

1. It resolves `filter` into one optional predicate per hook kind.
2. It makes a shallow copy `{...build}` and overrides the copy's `onResolve`
   or `onLoad` only when that kind has a predicate. The override registers,
   through the original `build`, a gating callback that calls the delegate's
   callback only when the predicate returns true. Otherwise the gating
   callback returns `undefined`.
3. It calls `plugin.setup` with the copy.

The model has five modules:

- `Wrappers` (`wrappers.dfy`): `Option`. `None` is JavaScript's `undefined`.
- `Hooks` (`hooks.dfy`): the pure part.
  - Callbacks as the host holds them: a plugin's own callback `Fn(f)`, or the
    adapter's gating lambda `Gated(pred, inner)`.
  - `Invoke`: what one call of a callback returns, with a trace of the
    predicate tests and delegate calls it makes.
  - Registration entry points: `Native` is the host's own. `Filtering(pred,
    next)` is the adapter's override, which forwards the gated callback to the
    entry point of the build it was given.
- `Build` (`build.dfy`): the state that `setup` changes.
  - `Host` is esbuild's list of registered hooks.
  - `PluginBuild` is the build object: `onResolve`, `onLoad`, every other
    capability (`others`) and the host it registers with. Its constructor
    `Copy` is `{...build}`.
- `FilterCallback` (`filter_callback.dfy`): the adapter.
  - `Filter` is either `Uniform(pred)` or `PerHook(onResolve?, onLoad?)`.
  - `ResolveFilter` gives the per-kind `Slots` (`filterCallbacks`).
  - `Plugin` is either a delegate that makes a fixed sequence of registration
    calls, or `Filtered(plugin, filter)`, the factory's result. `Name` is the
    plugin's `name`.
  - `Registrations` is the specification: the hooks the host records when a
    plugin is set up with a given build object.
  - The imperative `Setup`, `FilteredSetup`, `MakeWrapper` and `DelegateSetup`
    are proved to produce exactly those registrations.
- `FilterCallbackProperties` (`properties.dfy`): the adapter's promises,
  proved about `Registrations` by induction over plugins. This covers plugins
  produced by the adapter that are wrapped again.

Candidate arguments, registration options, callback results and the build's
other capabilities are opaque type parameters (`A`, `O`, `R`, `C`). The
adapter only passes them along.

The adapter registers one host hook per registration the delegate makes,
including registrations of a kind that has no predicate
(`OneRegistrationPerRequest`).

## Model

| member | source | states |
|---|---|---|
| `Hooks.Invoke` | src/esbuild-plugin-filter-callback.cjs:77-81 | Calling a callback passes the same args to every predicate and to the delegate. The delegate is called at most once, as the last step, and exactly when every gate accepts. Otherwise the result is `undefined`. |
| `Hooks.GateDecision` | src/esbuild-plugin-filter-callback.cjs:99-103 | Gating lambda. If the predicate accepts, it returns exactly the wrapped callback's result after one predicate test on the same args. If it rejects, it returns `undefined` after that one test, and the callback is never called. |
| `Hooks.Wrap` | src/esbuild-plugin-filter-callback.cjs:69-83 | The override passes the gated callback on to the copied `build.onResolve` (or `build.onLoad`, lines 91-105). A callback registered through stacked overrides gets past every gate exactly when every override admits the args. Its result is then the callback's own result, and `undefined` otherwise. |
| `Hooks.WrapGraft` | src/esbuild-plugin-filter-callback.cjs:70-82 | An override that forwards to the host's own `build.onResolve` gates the whole callback that the overrides above it produce. |
| `FilterCallback.ResolveFilter` | src/esbuild-plugin-filter-callback.cjs:41-44 | A single function fills both slots. A record fills the resolve slot from `filter.onResolve` only and the load slot from `filter.onLoad` only. |
| `FilterCallback.Override` | src/esbuild-plugin-filter-callback.cjs:62-85 | With no predicate, the wrapper keeps the entry point copied from the build. With predicate `p`, its entry point admits exactly what the copied one admits and `p` accepts. |
| `FilterCallback.RequestRegistration` | src/esbuild-plugin-filter-callback.cjs:69-83 | One `onResolve`/`onLoad` call on a build yields one registration of that kind with the same options. Its callback returns the delegate callback's result exactly when that kind's entry point admits the args, and `undefined` otherwise. |
| `FilterCallback.RequestsRegistrations` | src/esbuild-plugin-filter-callback.cjs:109 | The delegate's setup calls yield one registration each, in order, with the same kinds and options. |
| `FilterCallback.Registrations` | src/esbuild-plugin-filter-callback.cjs:37-110 | `setup` as a function of the build's entry points. However many adapters wrap the delegate, the host gets one registration per registration call of the innermost delegate, with the same kind and options. |
| `Build.PluginBuild.Copy` | src/esbuild-plugin-filter-callback.cjs:62 | `{...build}`: the copy has the same entry points, the same other capabilities and the same host. |
| `Build.PluginBuild.OnResolve` | src/esbuild-plugin-filter-callback.cjs:69-83 | Registering a resolve hook appends exactly one host registration. It keeps the same options, and its callback is the one the entry point's overrides produce. |
| `Build.PluginBuild.OnLoad` | src/esbuild-plugin-filter-callback.cjs:91-105 | Same as `OnResolve`, for load hooks. |
| `FilterCallback.MakeWrapper` | src/esbuild-plugin-filter-callback.cjs:62-106 | The wrapper is a fresh object that shares the host and every other capability. An entry point is overridden only when its kind has a predicate, and the override forwards to the copied entry point. Otherwise the wrapper keeps the copied entry point. |
| `FilterCallback.FilteredSetup` | src/esbuild-plugin-filter-callback.cjs:37-110 | The adapter's `setup` appends exactly `Registrations(Filtered(plugin, filter), …)` to the host. It calls the delegate's setup with the wrapper and leaves the build object unchanged. |
| `FilterCallback.Setup` | src/esbuild-plugin-filter-callback.cjs:109 | `plugin.setup(build)`, for a delegate or for an adapted plugin, appends exactly that plugin's `Registrations` for the build's entry points and leaves the build object unchanged. |
| `FilterCallback.DelegateSetup` | src/esbuild-plugin-filter-callback.cjs:109 | A delegate's setup, run on any build object, appends one registration per request, in order. |
| `FilterCallbackProperties.EntryPointDecides` | src/esbuild-plugin-filter-callback.cjs:62-63 | The registrations of one kind depend only on that kind's entry point. |
| `FilterCallbackProperties.GraftedEntryPoint` | src/esbuild-plugin-filter-callback.cjs:69-83 | One more override directly above the host's entry point turns every registration of that kind into the gate of that predicate around the original callback. Options are kept. |
| `FilterCallbackProperties.ExtraGate` | src/esbuild-plugin-filter-callback.cjs:77-81 | Suppose one entry point admits exactly what another admits and also requires `pred`. Then every registration of that kind returns the other's result when `pred` accepts, and `undefined` otherwise. The delegate is reached only when `pred` accepts. |
| `FilterCallbackProperties.OneRegistrationPerRequest` | src/esbuild-plugin-filter-callback.cjs:69-105 | Each delegate registration becomes exactly one host registration, in order, with the same kind and the same options, whatever the filter. |
| `FilterCallbackProperties.AbsentPredicatePassesThrough` | src/esbuild-plugin-filter-callback.cjs:62-85 | For a kind without a predicate, each delegate registration reaches the host unchanged, the delegate's own callback included. This holds for any build object. |
| `FilterCallbackProperties.PresentPredicateGates` | src/esbuild-plugin-filter-callback.cjs:69-83 | For a kind with predicate `pred`, each delegate registration of that kind becomes one host registration with the same options and callback `Gated(pred, delegate's callback)`. |
| `FilterCallbackProperties.GatedHookBehaviour` | src/esbuild-plugin-filter-callback.cjs:77-81 | For each candidate: if the predicate accepts, the host gets exactly the delegate callback's result, with one predicate test first. If it rejects, the host gets `undefined` after that one test, and the delegate is never called. |
| `FilterCallbackProperties.GatedOnAnyBuild` | src/esbuild-plugin-filter-callback.cjs:69-105 | On any build object, including one another adapter already wrapped, take a kind with predicate `pred` and any candidate. The host gets the delegate registration's own result if `pred` accepts and `undefined` if it rejects. The delegate's callback is reached only when `pred` accepts. |
| `FilterCallbackProperties.UniformIsBothSlots` | src/esbuild-plugin-filter-callback.cjs:41-44 | A single predicate is the same configuration as `{onResolve: pred, onLoad: pred}`. |
| `FilterCallbackProperties.SlotsAreIndependent` | src/esbuild-plugin-filter-callback.cjs:42-43 | Each kind's registrations depend only on that kind's predicate. Two filters that agree on it agree on those registrations. |
| `FilterCallbackProperties.NoPredicateIsTransparent` | src/esbuild-plugin-filter-callback.cjs:63-85 | With neither predicate, the host records exactly what the delegate registers. |
| `FilterCallbackProperties.NestedFiltersConjoin` | src/esbuild-plugin-filter-callback.cjs:70-82 | On any build object, an adapted plugin wrapped by a second adapter filters each kind for which both filters give a predicate by the conjunction of the two. The delegate is reached only when both accept. |
| `FilterCallbackProperties.NestedOuterGateFirst` | src/esbuild-plugin-filter-callback.cjs:70-82 | On the host's own build object, with single-predicate filters, the outer adapter's gate encloses the inner adapter's gate, which encloses the delegate's callback. So the outer predicate is tested first. |
| `FilterCallback.Name` | src/esbuild-plugin-filter-callback.cjs:31 | An adapted plugin's name is `filter-callback(` + the delegate's name + `)`. The delegate's name sits at positions 16 to length-1. |
| `FilterCallbackProperties.NameDeterminesDelegateName` | src/esbuild-plugin-filter-callback.cjs:31 | Equal produced names imply equal delegate names. |
| `FilterCallbackProperties.TypeScriptOnlyExample` | src/esbuild-plugin-filter-callback.cjs:30-111 | Delegate "sample" filtered to `.ts` paths: its name is `filter-callback(sample)`. Its resolve callback runs for `x.ts` and returns `undefined` for `x.js` without running. |
| `FilterCallbackProperties.LoadOnlyExample` | src/esbuild-plugin-filter-callback.cjs:85-106 | With only a load predicate, a resolve registration reaches the host with the delegate's own callback. |

## Left out

- esbuild's own use of registered hooks is not modelled: option matching, order of dispatch, and the meaning of options and results. The model stops at the host's list of registrations and at single callback calls.
- Asynchronous results are not modelled. A callback result is an opaque value the gate returns unchanged, and the code does no awaiting.
- Exceptions thrown by predicates, by delegate callbacks or by the delegate's setup are not modelled. The code only lets them propagate.
- JavaScript truthiness is not modelled. A predicate slot is an `Option`, and a predicate returns a `bool`.
- One type stands for both resolve and load args, and one for both options types. The adapter treats them alike; esbuild types them separately.
- A delegate's own `setup` is modelled as a fixed sequence of `onResolve`/`onLoad` calls. Anything else it does with the build object, such as reading other capabilities, is not modelled.
- The override reads `build.onResolve` (or `build.onLoad`) when it is called. The model fixes that value when the wrapper is made. The two agree because nothing in this code assigns to the build object given to `setup`.
- PresentPredicateGates: states the exact shape `Gated(pred, delegate's callback)` only for the host's own build object. On a build another adapter already wrapped, the new gate sits inside the existing ones, so that shape does not hold there. GatedOnAnyBuild states the result-level form for every build object.
- GatedHookBehaviour: states the exact trace (one predicate test, then the delegate's calls) only for the host's own build object. GatedOnAnyBuild gives results and delegate calls for every build object.
- FilteredSetup: the adapter's `setup` returns nothing (line 109 has no `return`), so a Promise returned by the delegate's `setup` is discarded and never awaited by the host. The model's setup methods have no result and do not represent this.
- The JSDoc type definitions and the license header are annotations only and are not modelled.
