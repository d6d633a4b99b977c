# Presenter factory: a Dafny model

This project models the runtime of a small Vue library that keeps presenter
logic apart from view components. Given a user factory function,
`presenterFactory(factoryFunction)` returns a hook, `usePresenterHook(props, view)`.
Each call of the hook runs the factory function and checks the configuration it
returns: a read-only (`computed`) `viewModel` plus the optional `onCreated` and
`onDestroy` hooks. The hook also runs a pending view-model override, if one is
registered, hands teardown to Vue's current effect scope, calls `onCreated`,
caches the resolved instance and returns `{ presenter, viewModel }`. For tests, the
hook carries three more operations: `spy()` takes the cached instance once,
`resetSpy()` empties the cache, and `mockViewModel(f)` registers an override for
the next call.

Modules, one per source file:

- `Errors` (`errors.dfy`) models lib/constants/error.ts: the message text of every
  catalog entry. A builder embeds a list of names the way JavaScript's
  `Array.prototype.toString` does, joining them with ",".
- `PresenterTypes` (`presenter_types.dfy`) models lib/presenter-factory.types.ts and
  the JavaScript values involved. A view model is a duplicate-free sequence of
  properties in insertion order, which is `Object.keys` order for names that are
  not array indices. A hook property is absent, falsy, a callable user function
  (which may throw) or some other truthy value. A thrown value is an `Error`
  object, any other value thrown as it is (`Raw`), or the engine's TypeError for
  calling a non-function.
- `Validators` (`validators.dfy`) models lib/validators.ts as two functions that
  return the error they would throw.
- `PresenterFactory` (`presenter_factory.dfy`) models lib/presenter-factory.ts.
  - The closure state of one `presenterFactory` call is the class `PresenterHook`.
    Its two fields are the single-slot holders `cachedPresenterInstance` and
    `viewModelOverride`.
  - Its methods `Call`, `Spy`, `ResetSpy` and `MockViewModel` update those fields
    in place.
  - The class `Host` stands for the world around the hook. It records whether a
    Vue effect scope is current, the teardown callbacks registered with
    `onScopeDispose`, each call into user code, and a supply of fresh object
    identities.
  - The pure function `Invoke` states what one hook call does, and `SpyStep`
    states what `spy()` does. `Call` and `Spy` are proved to follow them, and the
    lemmas state the source's promises about them.
- `PresenterScenarios` (`scenarios.dfy`) restates each case of
  `__tests__/presenter-factory.test.ts` as client code of `PresenterHook`, with
  the expected outcome as a postcondition.

Behaviour of the code worth spelling out, because a reader might expect otherwise:

- There is no fault isolation in lib/presenter-factory.ts. A throwing factory
  function propagates to the caller, inside a scope or not; no fallback
  presenter is returned. The comment in
  __tests__/components/error-boundary.test.ts:19-22 says the factory returns
  an empty computed view model when the presenter throws; lines 71-94 have no
  such path, and the model follows the code.
- The teardown registered at lib/presenter-factory.ts:78 only calls `onDestroy`.
  It does not clear the cached instance (`TeardownKeepsCache`).
- The pending override is cleared only when a call resolves (line 88, after
  every statement that can throw). A call that throws leaves it pending for the
  next call (`PendingOverrideSurvivesFailedCall`).
- `spy()` throws the message string itself, not an `Error` object (line 108).
- A falsy hook value other than `undefined` or `null`, such as `false`, passes
  validation (lib/validators.ts:10). Calling it with `?.()` at line 80 then throws
  a TypeError, after the teardown has been registered
  (`FalsyOnCreatedThrowsAfterValidation`).

## Model

| member | source | states |
|---|---|---|
| `Errors.ViewModelIsNotComputed` | lib/constants/error.ts:4-6 | the message extends PRESENTER_CONFIG.INFO |
| `Errors.OnCreatedHookNotAFunction` | lib/constants/error.ts:7-9 | the message extends PRESENTER_CONFIG.INFO |
| `Errors.OnDestroyHookNotAFunction` | lib/constants/error.ts:10-12 | the message extends PRESENTER_CONFIG.INFO |
| `Errors.PropertiesAreMissing` | lib/constants/error.ts:17-19 | the message extends VIEW_MODEL_MOCKING.INFO and holds the joined names right after " Properties " |
| `Errors.HasNonExistingProperties` | lib/constants/error.ts:21-23 | the message extends VIEW_MODEL_MOCKING.INFO and holds the joined names right after " Mocked view model properties " |
| `Errors.NoPresenterInstance` | lib/constants/error.ts:28-30 | the message extends SPYING.INFO |
| `Errors.ArrayToString` | lib/constants/error.ts:18 | the joined text starts with the first name, and for non-empty comma-free names holds exactly one "," fewer than there are names |
| `Errors.MessagesStartWithOrigin` | lib/constants/error.ts:1-30 | every message of the catalog, for any list of names, starts with "PresenterFactory: " |
| `Errors.ConfigMessagesDistinct` | lib/constants/error.ts:2-12 | the three PRESENTER_CONFIG messages each extend PRESENTER_CONFIG.INFO and are pairwise different |
| `Errors.MockingMessagesDistinct` | lib/constants/error.ts:15-23 | both VIEW_MODEL_MOCKING builders extend their INFO; a missing-properties message never equals a non-existing-properties message |
| `Errors.SplitArrayToString` | lib/constants/error.ts:17-23 | the comma-joined list a builder embeds gives back the original non-empty list of comma-free names when split at "," |
| `Errors.PropertiesAreMissingInjective` | lib/constants/error.ts:17-19 | two PROPERTIES_ARE_MISSING messages are equal exactly when their non-empty comma-free name lists are equal |
| `Errors.HasNonExistingPropertiesInjective` | lib/constants/error.ts:21-23 | two HAS_NON_EXISTING_PROPERTIES messages are equal exactly when their non-empty comma-free name lists are equal |
| `Validators.ValidatePresenterConfig` | lib/validators.ts:5-17 | the configuration check throws exactly when the view model is not read-only or a hook is truthy but not a function, and every error it throws carries a PRESENTER_CONFIG message |
| `Validators.ValidateViewModelOverride` | lib/validators.ts:19-31 | every error the override check throws carries a VIEW_MODEL_MOCKING message and names at least one property, none twice |
| `Validators.ConfigAcceptedIff` | lib/validators.ts:5-17 | a configuration passes exactly when its view model is read-only and neither hook is a truthy non-function |
| `Validators.ConfigFirstFailureReported` | lib/validators.ts:5-17 | checks run in the order viewModel, onCreated, onDestroy; each error is reported exactly when its check is the first to fail |
| `Validators.FalsyHooksAccepted` | lib/validators.ts:10-16 | absent and falsy hooks pass the check |
| `Validators.KeysNotIn` | lib/validators.ts:22-23 | the filter keeps exactly the names the other object lacks, in the original order (a subsequence), with no name twice when the input has none twice |
| `Validators.KeysNotInEmptyIff` | lib/validators.ts:25-31 | the filtered list is empty exactly when the other object has every name |
| `Validators.KeysNotInAppend` | lib/validators.ts:22-23 | filtering a concatenation is the concatenation of the filtered parts |
| `Validators.OverrideAcceptedIffSameKeys` | lib/validators.ts:19-31 | an override passes exactly when the mocked view model's key set equals the real one's; values are ignored |
| `Validators.OverrideNonExistingReported` | lib/validators.ts:20-27 | when the mocked view model has extra names, that error is reported (even if names are also missing), naming exactly the extra names in the mocked view model's key order |
| `Validators.OverrideMissingReported` | lib/validators.ts:20-31 | when no name is extra but some are missing, the missing-properties error names exactly those, in the real view model's key order |
| `PresenterFactory.Lookup` | lib/presenter-factory.ts:62 | an ordinary property read finds nothing exactly when the object lacks the name, and otherwise yields the value of the first property with that name |
| `PresenterFactory.CreatePresenterProxy` | lib/presenter-factory.ts:52-65 | the proxy's `viewModel` is a read-only computed of the override applied to the target's view model; every other property reads through to the target; the proxy wraps the given configuration object and keeps that object's identity |
| `PresenterFactory.OutputOf` | lib/presenter-factory.ts:90-93 | the returned `presenter` is the instance itself, and the returned `viewModel` is that presenter's own `viewModel` |
| `PresenterFactory.CallOptional` | lib/presenter-factory.ts:80 | `hook?.()` calls a function hook exactly once and throws exactly what the function throws; it throws a TypeError for any other non-nullish value; it throws nothing exactly when the hook is undefined, null or a function that does not throw; only a function is ever called |
| `PresenterFactory.Invoke` | lib/presenter-factory.ts:71-94 | a call that throws leaves both holders as they were; a call that returns caches its presenter and clears the override; at most one teardown is registered, and only inside a scope |
| `PresenterFactory.SpyStep` | lib/presenter-factory.ts:105-116 | `spy()` always leaves the cache empty and the override as it was, and succeeds exactly when an instance was cached, returning that instance |
| `PresenterFactory.InvokeCallsFactoryFunctionOnce` | lib/presenter-factory.ts:71-72 | each hook call runs the factory function exactly once, first, with the caller's props and view |
| `PresenterFactory.InvokePropagatesFactoryError` | lib/presenter-factory.ts:72 | a throw from the factory function reaches the caller unchanged; holders, teardowns and hooks are untouched |
| `PresenterFactory.InvokeRejected` | lib/presenter-factory.ts:74-76 | a rejected configuration or override throws an `Error` with the catalog message; holders are unchanged, `onCreated` is not called, no teardown is registered |
| `PresenterFactory.InvokeResolves` | lib/presenter-factory.ts:71-94 | a call resolves exactly when the factory returns, both checks pass and `onCreated` does not throw; it then caches the returned presenter (last write wins), clears the override, registers the teardown only in a scope, calls `onCreated` once, and returns a fresh identity |
| `PresenterFactory.InvokeAppliesOverride` | lib/presenter-factory.ts:82-93 | with an override pending the returned view model is the override applied to the real one; without, it is the configuration's `viewModel`; other properties are the configuration's |
| `PresenterFactory.InvokeOnCreatedThrows` | lib/presenter-factory.ts:78-80 | a throwing `onCreated` propagates; the teardown is already registered, the holders are unchanged, and the calls made are the factory function and then `onCreated` itself, if it is a function |
| `PresenterFactory.MockAppliesToNextCallOnly` | lib/presenter-factory.ts:82-88 | after `mockViewModel(o)` the next resolving call returns `o` of the real view model and the call after it returns the real view model |
| `PresenterFactory.SpyOnEmptySlotThrows` | lib/presenter-factory.ts:105-108 | `spy()` on an empty holder throws the NO_PRESENTER_INSTANCE string and changes nothing |
| `PresenterFactory.SpyReturnsLatestAndConsumes` | lib/presenter-factory.ts:105-116 | `spy()` right after a resolving call returns that call's output and empties the holder, so a second `spy()` throws |
| `PresenterFactory.LaterCallsResolveNewInstances` | lib/presenter-factory.ts:82-86 | a later call's presenter is a different object from any instance handed out before it; without an override this rests on the modelling choice that the factory function returns a new configuration object on every call (see "## Left out") |
| `PresenterFactory.TeardownsCallEachOnDestroy` | lib/presenter-factory.ts:78 | when each registered teardown refers to an absent `onDestroy` or one that does not throw, ending the scope throws nothing and calls exactly the functions among them, each once, in registration order |
| `PresenterFactory.CallableIdsAllCallable` | lib/presenter-factory.ts:78 | when every registered `onDestroy` is a function, the calls made on teardown are one per registration, in order |
| `PresenterFactory.RunTeardowns` | lib/presenter-factory.ts:78 | running the teardowns makes a prefix of the calls of the registered `onDestroy` functions, in registration order, and all of them when nothing throws; it throws nothing exactly when no single `onDestroy?.()` would throw, and otherwise throws what one of them throws |
| `PresenterFactory.RunTeardownsStopsAtFirstThrow` | lib/presenter-factory.ts:78 | when the teardowns throw, the run stops at the first teardown whose `onDestroy?.()` throws: every earlier one throws nothing, what the run throws is what that one throws, and the calls made are as many as the functions registered up to and including it |
| `PresenterFactory.Host.AllocateIds` | lib/presenter-factory.ts:82-86 | returns the host's next identity and advances it by two: one identity for the configuration object, one for a proxy around it |
| `PresenterFactory.Host.RunFactoryFunction` | lib/presenter-factory.ts:72 | running the factory function records one call and returns its result |
| `PresenterFactory.Host.TryOnScopeDispose` | lib/helpers/try-on-scope-dispose.ts:3-5 | a teardown is registered exactly when a scope is current |
| `PresenterFactory.Host.CallHook` | lib/presenter-factory.ts:80 | `config.onCreated?.()` logs and returns exactly what `CallOptional` gives: nothing for undefined or null, one call of a function with its throw passed on, a TypeError otherwise |
| `PresenterFactory.Host.EndScope` | lib/presenter-factory.ts:78 | ending the scope runs the registered teardowns in order and empties the list |
| `PresenterFactory.PresenterHook.constructor` | lib/presenter-factory.ts:32-50 | building the hook starts with both holders empty and does not run the factory function |
| `PresenterFactory.PresenterHook.Call` | lib/presenter-factory.ts:71-94 | the method's new holders, result, user-code calls and teardown registrations are those of `Invoke`; cached identities stay below the host's next identity |
| `PresenterFactory.PresenterHook.Spy` | lib/presenter-factory.ts:105-116 | the new holders and the result are those of `SpyStep` |
| `PresenterFactory.PresenterHook.ResetSpy` | lib/presenter-factory.ts:119-121 | empties the cache holder, never throws, leaves the override |
| `PresenterFactory.PresenterHook.MockViewModel` | lib/presenter-factory.ts:132-136 | replaces the pending override, leaves the cache |
| `PresenterScenarios.CallbackRunsOnlyWhenHookIsCalled` | __tests__/presenter-factory.test.ts:11-21 | no user code runs when the hook is built; one call runs the factory function exactly once |
| `PresenterScenarios.LifecycleHooksRun` | __tests__/presenter-factory.test.ts:23-47 | mounting calls `onCreated` once and not `onDestroy`; unmounting then calls `onDestroy` once |
| `PresenterScenarios.NonComputedViewModelRejected` | __tests__/presenter-factory.test.ts:49-59 | a view model that is not read-only throws VIEW_MODEL_IS_NOT_COMPUTED |
| `PresenterScenarios.ReturnsPresenterAndViewModel` | __tests__/presenter-factory.test.ts:61-70 | a call returns the presenter, whose properties are the configuration's, and its view model |
| `PresenterScenarios.FactoryErrorsAreNotSwallowed` | __tests__/presenter-factory.test.ts:72-78 | whatever the factory function throws is what the call throws |
| `PresenterScenarios.OneSpyPerInstance` | __tests__/presenter-factory.test.ts:82-115 | call, spy, spy throws; three call-spy rounds all succeed; two hooks each spy their own instance |
| `PresenterScenarios.SpyKeepsEarlierInstance` | __tests__/presenter-factory.test.ts:117-138 | an instance taken by `spy()` is a different object from the next call's presenter |
| `PresenterScenarios.SpyReturnsResolvedInstance` | __tests__/presenter-factory.test.ts:140-156 | `spy()` returns exactly what the preceding call returned |
| `PresenterScenarios.MockAppliesOnce` | __tests__/presenter-factory.test.ts:160-210 | the first call after `mockViewModel(o)` returns `o` of the real view model; the second returns the real one |
| `PresenterScenarios.ExtraPropertyReported` | lib/validators.ts:22-27 | a mock `{...vm, extra}` with a new name is rejected naming exactly that name |
| `PresenterScenarios.ExtraPropertyRejected` | __tests__/presenter-factory.test.ts:212-231 | the hook call with such a mock throws HAS_NON_EXISTING_PROPERTIES for that one name |
| `PresenterScenarios.MissingPropertyReported` | lib/validators.ts:23-31 | a mock that drops one property is rejected naming exactly that property |
| `PresenterScenarios.MissingPropertyRejected` | __tests__/presenter-factory.test.ts:233-248 | the hook call with such a mock throws PROPERTIES_ARE_MISSING for that one name |
| `PresenterScenarios.Assign` | __tests__/presenter-factory.test.ts:163-168 | object spread of one property keeps the names, or appends the new name last; the spread name reads the new value and every other name reads as before |
| `PresenterScenarios.RemoveAt` | __tests__/presenter-factory.test.ts:236-238 | deleting a property keeps the other names in order and drops that one; every other name reads as before |
| `PresenterScenarios.TeardownKeepsCache` | lib/presenter-factory.ts:78 | after the scope ends, `spy()` still returns the instance the call resolved |
| `PresenterScenarios.HooksDoNotShareOverrides` | lib/presenter-factory.ts:38-50 | an override registered on one hook does not affect another hook's call |
| `PresenterScenarios.ResetSpyEmptiesTheHolder` | lib/presenter-factory.ts:119-121 | `resetSpy()` on an empty or a full holder leaves it empty, so `spy()` throws |
| `PresenterScenarios.PendingOverrideSurvivesFailedCall` | lib/presenter-factory.ts:74-88 | a call that throws keeps the pending override, which then applies to the next resolving call |
| `PresenterScenarios.FalsyOnCreatedThrowsAfterValidation` | lib/presenter-factory.ts:74-80 | a falsy non-nullish `onCreated` passes validation, then calling it throws a TypeError after teardown registration; nothing is cached |

## Left out

- Vue reactivity (`computed`, `isReadonly`, `getCurrentScope`, `onScopeDispose`) is foreign code. A `computed` is its current value and `isReadonly` is a flag. The current scope is a boolean on `Host`, with the list of registered teardowns.
- A read-only value that is not a ref (such as `readonly(reactive(...))`) passes `isReadonly`, but its `.value` is undefined. With an override pending, `Object.keys` or `in` then throws a TypeError inside lib/validators.ts:22-23; without one, the call resolves. The model does not represent such a value: a read-only view model always has a current value, and it is a plain object.
- A computed whose value is not an object (such as `computed(() => null)`) is not represented either. With an override pending it would make lib/validators.ts:22-23 throw a TypeError.
- `Proxy`/`Reflect` mechanics: each read of `viewModel` through the proxy builds a new `computed`. The model gives its value, not its identity.
- The override function is a pure Dafny function from view model to view model. How many times it is called (once by validation, again on every read through the proxy) cannot be observed. An override that returns something other than an object is not modelled. For `null` or `undefined`, `Object.keys` throws a TypeError at lib/validators.ts:22. For another primitive, `Object.keys` gives its own index names (none for a number), and the `in` test at line 23 throws a TypeError as soon as the real view model has a property. With an empty real view model, an override returning a number passes validation.
- An override that throws at lib/validators.ts:20 is not modelled, because an override is a total function. Such a throw would leave the call exactly as a rejected override does: nothing registered, nothing cached, the override still pending.
- Re-entrant user code is not modelled. The factory function (line 72) and `onCreated` (line 80) run before the hook reads `viewModelOverride` at lines 76 and 82-88, and either could call `mockViewModel`, `spy` or `resetSpy` on the same hook. In the model, user code cannot reach the hook, so `Invoke` reads the holders as they were when the call began.
- `Object.keys` lists names that are array indices (such as "0") first, in numeric order, and all other names in insertion order. The model uses insertion order for every name. This affects only the order of the names in the mocking error messages, and `PresenterScenarios.Assign` appends a new name last even when it is an array index.
- The factory function is a deterministic function of `props` and `view`. The reactive state it reads is folded into that function. Every configuration it returns counts as a new object; a factory that returns one shared object on every call is not modelled.
- The teardown closure reads `config.onDestroy` when it runs. The model takes the value at registration, since nothing in the core changes a configuration afterwards.
- What Vue does after a teardown throws is outside the core. `Host.EndScope` stops at the first throwing teardown and reports what it threw.
- The model treats `key in obj` at lib/validators.ts:22-23 as a test of the object's own names. In JavaScript it also finds names inherited from `Object.prototype`. So in the source, a mock that adds a property such as `toString` passes the extra-names check at line 22, while the model reports that name as non-existing.
- A configuration's other properties (`Config.fields`) hold each name once and never `viewModel`, `onCreated` or `onDestroy`, as in a JavaScript object, where those three names have their own fields.
- Removing `onCreated`/`onDestroy` from the returned `presenter` exists only in the types (lib/presenter-factory.types.ts:24-27), not at run time, and is not modelled.
- Generic typing in lib/presenter-factory.types.ts has no run-time behaviour.
- The example presenter that uses `setTimeout` (__tests__/tooling/use-pet-store.presenter.ts) is asynchronous. The component-mounting tests, the error-boundary test (which expects a fault-isolation fallback the code does not have), the documentation site and the Vite configurations are UI, test plumbing or build configuration.
