/**
 * lib/presenter-factory.ts: `presenterFactory` and the hook it returns.
 *
 * The closure state of one `presenterFactory` call (the two single-slot
 * holders `cachedPresenterInstance` and `viewModelOverride`) is the class
 * `PresenterHook`; its methods are `usePresenterHook`, `spy`, `resetSpy` and
 * `mockViewModel`.  What the hook does to the world around it (calling user
 * functions, Vue's `onScopeDispose`, creating objects) goes through `Host`.
 * The function `Invoke` states what one hook call does, and the lemmas below
 * it state what the source promises about that.
 */
module PresenterFactory {
  import opened Wrappers
  import opened PresenterTypes
  import opened Validators
  import Errors

  /** The opaque `props` and `view` arguments, forwarded verbatim to the factory function. */
  datatype Arg = NoArg | ArgObject(id: nat)

  /** What one run of the factory function does: return a configuration or throw. */
  datatype Produced = Returns(config: Config) | Throws(thrown: Thrown)

  /** The user's factory function; what it computes from reactive state is folded into its result. */
  type FactoryFunction = (Arg, Arg) -> Produced

  /** A property read on a presenter instance. */
  datatype Slot = ViewModelSlot(ref: ViewModelRef) | HookSlot(hook: Hook) | DataSlot(value: Value) | NoSuchProperty

  /** Reads a property of a configuration object. */
  function ReadConfig(config: Config, name: string): Slot {
    if name == "viewModel" then ViewModelSlot(config.viewModel)
    else if name == "onCreated" then HookSlot(config.onCreated)
    else if name == "onDestroy" then HookSlot(config.onDestroy)
    else Lookup(config.fields, name)
  }

  /**
   * Reads an ordinary property: the value of the first property with that
   * name, or nothing if the object has no such property.
   */
  function Lookup(fields: seq<Property>, name: string): (slot: Slot)
    ensures slot.NoSuchProperty? <==> !HasKey(fields, name)
    ensures HasKey(fields, name) ==> slot.DataSlot?
    ensures forall i :: 0 <= i < |fields| ==>
      (fields[i].key == name && (forall j :: 0 <= j < i ==> fields[j].key != name) ==> slot == DataSlot(fields[i].value))
  {
    if fields == [] then NoSuchProperty
    else if fields[0].key == name then DataSlot(fields[0].value)
    else
      assert Keys(fields) == [fields[0].key] + Keys(fields[1..]);
      assert forall i :: 1 <= i < |fields| ==> fields[i] == fields[1..][i - 1];
      Lookup(fields[1..], name)
  }

  /**
   * A resolved presenter instance.  `id` is its object identity: the
   * configuration object itself, or the `Proxy` that `createPresenterProxy`
   * wraps around the configuration object `targetId`.
   */
  datatype Instance =
    | Plain(id: nat, config: Config)
    | Proxied(id: nat, targetId: nat, target: Config, viewModelOverride: Override)
  {
    /** `instance.viewModel`: through a proxy, a computed of the override applied to the real view model. */
    function ReadViewModel(): ViewModelRef {
      match this
      case Plain(_, config) => config.viewModel
      case Proxied(_, _, target, f) => ViewModelRef(true, f(target.viewModel.value))
    }

    /** `instance[name]`: the proxy's `get` trap intercepts "viewModel" only. */
    function Get(name: string): Slot {
      match this
      case Plain(_, config) => ReadConfig(config, name)
      case Proxied(_, _, target, _) =>
        if name == "viewModel" then ViewModelSlot(ReadViewModel()) else ReadConfig(target, name)
    }

    predicate IdsBelow(bound: nat) {
      id < bound && (Proxied? ==> targetId < bound)
    }
  }

  /** `createPresenterProxy(config, override)` for the proxy object `proxyId` around `configId`. */
  function CreatePresenterProxy(proxyId: nat, configId: nat, config: Config, viewModelOverride: Override): (p: Instance)
    ensures p.id == proxyId
    ensures p.Proxied? && p.targetId == configId && p.target == config
    ensures p.Get("viewModel") == ViewModelSlot(ViewModelRef(true, viewModelOverride(config.viewModel.value)))
    ensures forall name :: name != "viewModel" ==> p.Get(name) == ReadConfig(config, name)
  {
    Proxied(proxyId, configId, config, viewModelOverride)
  }

  /** `{ presenter, viewModel }`. */
  datatype Output = Output(presenter: Instance, viewModel: ViewModelRef)

  function OutputOf(presenter: Instance): (out: Output)
    ensures out.presenter == presenter
    ensures ViewModelSlot(out.viewModel) == out.presenter.Get("viewModel")
  {
    Output(presenter, presenter.ReadViewModel())
  }

  /** A call from the factory into user code. */
  datatype Event = FactoryFunctionCalled(props: Arg, view: Arg) | HookCalled(property: string, id: nat)

  /**
   * `config[property]?.()`: nothing for undefined or null, a call of a
   * function (which may throw), and a TypeError for any other value.
   */
  function CallOptional(h: Hook, property: string): (r: (seq<Event>, Option<Thrown>))
    ensures r.1.None? <==> h.Absent? || (h.Callable? && h.raises.None?)
    ensures |r.0| <= 1 && (r.0 != [] ==> h.Callable? && r.0[0] == HookCalled(property, h.id))
    ensures h.Callable? ==> r.0 == [HookCalled(property, h.id)] && r.1 == h.raises
    ensures h.FalsyValue? || h.NonFunction? ==> r.1 == Some(NotAFunction(property))
  {
    match h
    case Absent => ([], None)
    case Callable(id, raises) => ([HookCalled(property, id)], raises)
    case FalsyValue => ([], Some(NotAFunction(property)))
    case NonFunction => ([], Some(NotAFunction(property)))
  }

  /** The two single-slot holders of one factory. */
  datatype Slots = Slots(cached: Option<Instance>, pending: Option<Override>)

  /**
   * One hook call: the new holders, what the call returns or throws, the
   * calls into user code in order, and the teardown callbacks handed to
   * `onScopeDispose` (each stands for `() => config.onDestroy?.()`).
   */
  datatype Step = Step(slots: Slots, result: Result<Output, Thrown>, events: seq<Event>, registered: seq<Hook>)

  /**
   * `usePresenterHook(props, view)` from holders `s`, with or without a
   * current effect scope; `newId` and `newId + 1` are unused object
   * identities for the configuration object and for a proxy.
   */
  function Invoke(f: FactoryFunction, props: Arg, view: Arg, s: Slots, inScope: bool, newId: nat): (st: Step)
    ensures st.result.Failure? ==> st.slots == s
    ensures st.result.Success? ==> st.slots == Slots(Some(st.result.value.presenter), None)
    ensures st.registered == [] || (inScope && |st.registered| == 1)
  {
    var called := [FactoryFunctionCalled(props, view)];
    match f(props, view)
    case Throws(t) => Step(s, Failure(t), called, [])
    case Returns(config) =>
      var checked := ValidatePresenterConfig(config);
      if checked.Fail? then Step(s, Failure(ErrorObject(checked.error.Message())), called, [])
      else
        var overrideChecked :=
          if s.pending.Some? then ValidateViewModelOverride(s.pending.value, config.viewModel.value) else Pass;
        if overrideChecked.Fail? then Step(s, Failure(ErrorObject(overrideChecked.error.Message())), called, [])
        else
          var registered := if inScope then [config.onDestroy] else [];
          var (created, raised) := CallOptional(config.onCreated, "onCreated");
          if raised.Some? then Step(s, Failure(raised.value), called + created, registered)
          else
            var presenter :=
              if s.pending.Some? then CreatePresenterProxy(newId + 1, newId, config, s.pending.value)
              else Plain(newId, config);
            Step(Slots(Some(presenter), None), Success(OutputOf(presenter)), called + created, registered)
  }

  /** `spy()` from holders `s`: the holders afterwards and what it returns or throws. */
  function SpyStep(s: Slots): (r: (Slots, Result<Output, Thrown>))
    ensures r.0 == s.(cached := None)
    ensures r.1.Success? <==> s.cached.Some?
    ensures r.1.Success? ==> r.1.value.presenter == s.cached.value
  {
    match s.cached
    case None => (s, Failure(Raw(Text(Errors.NoPresenterInstance()))))
    case Some(presenter) => (s.(cached := None), Success(OutputOf(presenter)))
  }

  /**
   * Runs the registered teardown callbacks in order; a throwing callback stops
   * the run.  The calls made are those of the function hooks, in registration
   * order, up to the first throw and all of them when nothing throws; what is
   * thrown is what one of the callbacks throws.
   */
  function RunTeardowns(hooks: seq<Hook>): (r: (seq<Event>, Option<Thrown>))
    ensures |r.0| <= |CallableIds(hooks)| <= |hooks|
    ensures forall i :: 0 <= i < |r.0| ==> r.0[i] == HookCalled("onDestroy", CallableIds(hooks)[i])
    ensures r.1.None? <==> forall i :: 0 <= i < |hooks| ==> CallOptional(hooks[i], "onDestroy").1.None?
    ensures r.1.None? ==> |r.0| == |CallableIds(hooks)|
    ensures r.1.Some? ==> exists i :: 0 <= i < |hooks| && r.1 == CallOptional(hooks[i], "onDestroy").1
  {
    if hooks == [] then ([], None)
    else
      var (events, raised) := CallOptional(hooks[0], "onDestroy");
      if raised.Some? then
        (events, raised)
      else
        var (rest, raisedLater) := RunTeardowns(hooks[1..]);
        assert forall i :: 1 <= i < |hooks| ==> hooks[i] == hooks[1..][i - 1];
        (events + rest, raisedLater)
  }

  // ---------------------------------------------------------------------------
  // Properties of one hook call

  /** Each hook call runs the factory function exactly once, first, with the caller's arguments. */
  lemma InvokeCallsFactoryFunctionOnce(f: FactoryFunction, props: Arg, view: Arg, s: Slots, inScope: bool, newId: nat)
    ensures var st := Invoke(f, props, view, s, inScope, newId);
      && |st.events| >= 1
      && st.events[0] == FactoryFunctionCalled(props, view)
      && forall i :: 1 <= i < |st.events| ==> !st.events[i].FactoryFunctionCalled?
  {
  }

  /** A throw from the factory function propagates unchanged, and nothing else happens. */
  lemma InvokePropagatesFactoryError(f: FactoryFunction, props: Arg, view: Arg, s: Slots, inScope: bool, newId: nat)
    requires f(props, view).Throws?
    ensures Invoke(f, props, view, s, inScope, newId)
      == Step(s, Failure(f(props, view).thrown), [FactoryFunctionCalled(props, view)], [])
  {
  }

  /**
   * A rejected configuration or override is thrown as an `Error` with the
   * catalog message, and none of the later steps happen: the holders are
   * unchanged, `onCreated` is not called and no teardown is registered.
   */
  lemma InvokeRejected(f: FactoryFunction, props: Arg, view: Arg, s: Slots, inScope: bool, newId: nat)
    requires f(props, view).Returns?
    ensures var config := f(props, view).config;
      var st := Invoke(f, props, view, s, inScope, newId);
      && (ValidatePresenterConfig(config).Fail? ==>
            st == Step(s, Failure(ErrorObject(ValidatePresenterConfig(config).error.Message())),
                       [FactoryFunctionCalled(props, view)], []))
      && (ValidatePresenterConfig(config) == Pass && s.pending.Some?
          && ValidateViewModelOverride(s.pending.value, config.viewModel.value).Fail? ==>
            st == Step(s, Failure(ErrorObject(ValidateViewModelOverride(s.pending.value, config.viewModel.value).error.Message())),
                       [FactoryFunctionCalled(props, view)], []))
  {
  }

  /** The conditions under which a hook call returns instead of throwing. */
  predicate Resolves(f: FactoryFunction, props: Arg, view: Arg, pending: Option<Override>) {
    && f(props, view).Returns?
    && ValidatePresenterConfig(f(props, view).config) == Pass
    && (pending.Some? ==> ValidateViewModelOverride(pending.value, f(props, view).config.viewModel.value) == Pass)
    && CallOptional(f(props, view).config.onCreated, "onCreated").1.None?
  }

  /**
   * A hook call returns exactly when the factory function returns, both
   * checks pass and `onCreated` does not throw.  It then registers the
   * teardown only inside a scope, calls `onCreated` once after that, caches
   * the returned presenter (last write wins), consumes the pending override,
   * and returns a `viewModel` that is the presenter's own.
   */
  lemma InvokeResolves(f: FactoryFunction, props: Arg, view: Arg, s: Slots, inScope: bool, newId: nat)
    ensures var st := Invoke(f, props, view, s, inScope, newId);
      st.result.Success? <==> Resolves(f, props, view, s.pending)
    ensures var st := Invoke(f, props, view, s, inScope, newId);
      st.result.Success? ==>
        var config := f(props, view).config;
        && st.slots == Slots(Some(st.result.value.presenter), None)
        && ViewModelSlot(st.result.value.viewModel) == st.result.value.presenter.Get("viewModel")
        && st.result.value.presenter.IdsBelow(newId + 2)
        && st.result.value.presenter.id >= newId
        && st.registered == (if inScope then [config.onDestroy] else [])
        && st.events == [FactoryFunctionCalled(props, view)]
             + (if config.onCreated.Callable? then [HookCalled("onCreated", config.onCreated.id)] else [])
  {
  }

  /**
   * With an override pending, the returned view model is the override
   * applied to the real one; without, it is the configuration's own
   * `viewModel`.  Every other property reads the configuration unchanged.
   */
  lemma InvokeAppliesOverride(f: FactoryFunction, props: Arg, view: Arg, s: Slots, inScope: bool, newId: nat)
    requires Resolves(f, props, view, s.pending)
    ensures var config := f(props, view).config;
      var out := Invoke(f, props, view, s, inScope, newId).result.value;
      && (s.pending.Some? ==> out.viewModel == ViewModelRef(true, s.pending.value(config.viewModel.value)))
      && (s.pending.None? ==> out.viewModel == config.viewModel)
      && (forall name :: name != "viewModel" ==> out.presenter.Get(name) == ReadConfig(config, name))
  {
  }

  /** A hook call that throws after the checks (from `onCreated`) keeps the teardown it registered. */
  lemma InvokeOnCreatedThrows(f: FactoryFunction, props: Arg, view: Arg, s: Slots, inScope: bool, newId: nat)
    requires f(props, view).Returns?
    requires ValidatePresenterConfig(f(props, view).config) == Pass
    requires s.pending.Some? ==> ValidateViewModelOverride(s.pending.value, f(props, view).config.viewModel.value) == Pass
    requires CallOptional(f(props, view).config.onCreated, "onCreated").1.Some?
    ensures var config := f(props, view).config;
      var st := Invoke(f, props, view, s, inScope, newId);
      && st.slots == s
      && st.result == Failure(CallOptional(config.onCreated, "onCreated").1.value)
      && st.registered == (if inScope then [config.onDestroy] else [])
      && st.events == [FactoryFunctionCalled(props, view)] + CallOptional(config.onCreated, "onCreated").0
  {
  }

  /**
   * `mockViewModel(o)` affects exactly the next resolving call: it returns
   * `o` applied to the real view model, and the call after it returns the
   * real view model again.
   */
  lemma MockAppliesToNextCallOnly(f: FactoryFunction, props: Arg, view: Arg, s: Slots, o: Override,
                                  inScope: bool, newId: nat)
    requires Resolves(f, props, view, Some(o))
    ensures var first := Invoke(f, props, view, s.(pending := Some(o)), inScope, newId);
      var second := Invoke(f, props, view, first.slots, inScope, newId + 2);
      var realVm := f(props, view).config.viewModel;
      && first.result.value.viewModel == ViewModelRef(true, o(realVm.value))
      && first.slots.pending == None
      && second.result == Success(OutputOf(Plain(newId + 2, f(props, view).config)))
      && second.result.value.viewModel == realVm
  {
    InvokeAppliesOverride(f, props, view, s.(pending := Some(o)), inScope, newId);
  }

  // ---------------------------------------------------------------------------
  // Properties of spy

  /** `spy()` on an empty holder throws the raw NO_PRESENTER_INSTANCE string and changes nothing. */
  lemma SpyOnEmptySlotThrows(s: Slots)
    requires s.cached.None?
    ensures SpyStep(s) == (s, Failure(Raw(Text(Errors.NoPresenterInstance()))))
  {
  }

  /**
   * `spy()` right after a resolving call returns that call's presenter and
   * view model, keeps the pending override, and empties the holder so that
   * a second `spy()` throws.
   */
  lemma SpyReturnsLatestAndConsumes(f: FactoryFunction, props: Arg, view: Arg, s: Slots, inScope: bool, newId: nat)
    requires Resolves(f, props, view, s.pending)
    ensures var st := Invoke(f, props, view, s, inScope, newId);
      var (afterSpy, spied) := SpyStep(st.slots);
      && spied == st.result
      && afterSpy == Slots(None, None)
      && SpyStep(afterSpy).1 == Failure(Raw(Text(Errors.NoPresenterInstance())))
  {
  }

  /**
   * A later resolving call's presenter is a different object from any
   * presenter handed out before it.  Without a pending override the presenter
   * is the configuration object itself, so this rests on the modelling choice
   * that each run of the factory function returns a new object.
   */
  lemma LaterCallsResolveNewInstances(f: FactoryFunction, props: Arg, view: Arg, s: Slots, earlier: Instance,
                                      inScope: bool, newId: nat)
    requires earlier.IdsBelow(newId)
    requires Resolves(f, props, view, s.pending)
    ensures Invoke(f, props, view, s, inScope, newId).result.value.presenter.id != earlier.id
  {
  }

  // ---------------------------------------------------------------------------
  // Properties of teardown

  /** The identities of the functions among `hooks`, in order. */
  function CallableIds(hooks: seq<Hook>): (ids: seq<nat>)
    ensures |ids| <= |hooks|
    ensures (forall i :: 0 <= i < |hooks| ==> hooks[i].Callable?) ==> |ids| == |hooks|
  {
    if hooks == [] then []
    else (if hooks[0].Callable? then [hooks[0].id] else []) + CallableIds(hooks[1..])
  }

  /**
   * When every registered teardown refers to an absent or a non-throwing
   * `onDestroy`, ending the scope calls each function exactly once, in
   * registration order, and skips the absent ones.
   */
  lemma {:induction false} TeardownsCallEachOnDestroy(hooks: seq<Hook>)
    requires forall i :: 0 <= i < |hooks| ==> hooks[i].Absent? || (hooks[i].Callable? && hooks[i].raises.None?)
    ensures RunTeardowns(hooks).1 == None
    ensures |RunTeardowns(hooks).0| == |CallableIds(hooks)|
    ensures forall i :: 0 <= i < |CallableIds(hooks)| ==>
      RunTeardowns(hooks).0[i] == HookCalled("onDestroy", CallableIds(hooks)[i])
  {
    if hooks != [] {
      TeardownsCallEachOnDestroy(hooks[1..]);
    }
  }

  /** Teardown `j` is the first one whose `onDestroy?.()` throws. */
  predicate FirstThrowAt(hooks: seq<Hook>, j: int) {
    && 0 <= j < |hooks|
    && (forall i :: 0 <= i < j ==> CallOptional(hooks[i], "onDestroy").1.None?)
    && CallOptional(hooks[j], "onDestroy").1.Some?
  }

  /** How many functions the first `n` registrations hold, counted from the head. */
  lemma CallableIdsPrefix(hooks: seq<Hook>, n: nat)
    requires 1 <= n <= |hooks|
    ensures |CallableIds(hooks[..n])| == (if hooks[0].Callable? then 1 else 0) + |CallableIds(hooks[1..][..n - 1])|
  {
    assert hooks[..n][0] == hooks[0];
    assert hooks[..n][1..] == hooks[1..][..n - 1];
  }

  /** The index of the first teardown whose `onDestroy?.()` throws, or `|hooks|` if none does. */
  function FirstThrow(hooks: seq<Hook>): (j: nat)
    ensures j <= |hooks|
  {
    if hooks == [] then 0
    else if CallOptional(hooks[0], "onDestroy").1.Some? then 0
    else 1 + FirstThrow(hooks[1..])
  }

  /**
   * If the run throws, it stopped at the first throwing teardown: it throws
   * what that one throws and has called exactly the functions registered up
   * to and including it.
   */
  predicate StopsAtFirstThrow(hooks: seq<Hook>) {
    var j := FirstThrow(hooks);
    RunTeardowns(hooks).1.Some? ==>
      && FirstThrowAt(hooks, j)
      && RunTeardowns(hooks).1 == CallOptional(hooks[j], "onDestroy").1
      && |RunTeardowns(hooks).0| == |CallableIds(hooks[..j + 1])|
  }

  lemma StopsAtThrowingHead(hooks: seq<Hook>)
    requires hooks != [] && CallOptional(hooks[0], "onDestroy").1.Some?
    ensures StopsAtFirstThrow(hooks)
  {
    CallableIdsPrefix(hooks, 1);
  }

  lemma StopsAfterQuietHead(hooks: seq<Hook>)
    requires hooks != [] && CallOptional(hooks[0], "onDestroy").1.None?
    requires StopsAtFirstThrow(hooks[1..])
    ensures StopsAtFirstThrow(hooks)
  {
    var tail := hooks[1..];
    var (rest, raisedLater) := RunTeardowns(tail);
    var events := CallOptional(hooks[0], "onDestroy").0;
    assert RunTeardowns(hooks) == (events + rest, raisedLater);
    if raisedLater.Some? {
      var j := FirstThrow(tail);
      assert FirstThrow(hooks) == j + 1;
      FirstThrowAtShift(hooks, j);
      CallableIdsPrefix(hooks, j + 2);
    }
  }

  lemma FirstThrowAtShift(hooks: seq<Hook>, j: int)
    requires hooks != [] && CallOptional(hooks[0], "onDestroy").1.None?
    requires FirstThrowAt(hooks[1..], j)
    ensures FirstThrowAt(hooks, j + 1) && hooks[j + 1] == hooks[1..][j]
  {
    forall i | 0 <= i < j + 1
      ensures CallOptional(hooks[i], "onDestroy").1.None?
    {
      if i > 0 {
        assert hooks[i] == hooks[1..][i - 1];
      }
    }
  }

  /**
   * When a teardown throws, the run stops at the first one that does: it
   * throws what that one throws, and it has called exactly the functions
   * registered up to and including it.
   */
  lemma {:induction false} RunTeardownsStopsAtFirstThrow(hooks: seq<Hook>)
    ensures StopsAtFirstThrow(hooks)
  {
    if hooks == [] {
    } else if CallOptional(hooks[0], "onDestroy").1.Some? {
      StopsAtThrowingHead(hooks);
    } else {
      RunTeardownsStopsAtFirstThrow(hooks[1..]);
      StopsAfterQuietHead(hooks);
    }
  }

  /** When every registered `onDestroy` is a function, the calls are exactly their identities in order. */
  lemma {:induction false} CallableIdsAllCallable(hooks: seq<Hook>)
    requires forall i :: 0 <= i < |hooks| ==> hooks[i].Callable?
    ensures forall i :: 0 <= i < |hooks| ==> CallableIds(hooks)[i] == hooks[i].id
  {
    if hooks != [] {
      CallableIdsAllCallable(hooks[1..]);
    }
  }

  // ---------------------------------------------------------------------------
  // The state around the factory

  /**
   * What the hook interacts with outside its closure: whether Vue has a
   * current effect scope, the teardown callbacks registered on it, the calls
   * made into user code, and the supply of fresh object identities.
   */
  class Host {
    var scopeActive: bool
    var teardowns: seq<Hook>
    var log: seq<Event>
    var nextId: nat

    constructor(inScope: bool)
      ensures scopeActive == inScope && teardowns == [] && log == [] && nextId == 0
    {
      scopeActive := inScope;
      teardowns := [];
      log := [];
      nextId := 0;
    }

    /** Two fresh object identities: one for a configuration object, one for a proxy. */
    method AllocateIds() returns (id: nat)
      modifies this
      ensures id == old(nextId) && nextId == old(nextId) + 2
      ensures scopeActive == old(scopeActive) && teardowns == old(teardowns) && log == old(log)
    {
      id := nextId;
      nextId := nextId + 2;
    }

    /** Runs the factory function. */
    method RunFactoryFunction(f: FactoryFunction, props: Arg, view: Arg) returns (produced: Produced)
      modifies this
      ensures produced == f(props, view)
      ensures log == old(log) + [FactoryFunctionCalled(props, view)]
      ensures scopeActive == old(scopeActive) && teardowns == old(teardowns) && nextId == old(nextId)
    {
      log := log + [FactoryFunctionCalled(props, view)];
      produced := f(props, view);
    }

    /** lib/helpers/try-on-scope-dispose.ts: `onScopeDispose` only when a scope exists. */
    method TryOnScopeDispose(onDestroy: Hook)
      modifies this
      ensures teardowns == old(teardowns) + (if scopeActive then [onDestroy] else [])
      ensures scopeActive == old(scopeActive) && log == old(log) && nextId == old(nextId)
    {
      if scopeActive {
        teardowns := teardowns + [onDestroy];
      }
    }

    /** `config[property]?.()`. */
    method CallHook(h: Hook, property: string) returns (raised: Option<Thrown>)
      modifies this
      ensures log == old(log) + CallOptional(h, property).0 && raised == CallOptional(h, property).1
      ensures scopeActive == old(scopeActive) && teardowns == old(teardowns) && nextId == old(nextId)
    {
      var (events, r) := CallOptional(h, property);
      log := log + events;
      raised := r;
    }

    /** The scope ends (the component unmounts): Vue runs the registered teardowns. */
    method EndScope() returns (raised: Option<Thrown>)
      modifies this
      ensures log == old(log) + RunTeardowns(old(teardowns)).0 && raised == RunTeardowns(old(teardowns)).1
      ensures teardowns == [] && !scopeActive && nextId == old(nextId)
    {
      var (events, r) := RunTeardowns(teardowns);
      log := log + events;
      raised := r;
      teardowns := [];
      scopeActive := false;
    }
  }

  /** The hook `presenterFactory(factoryFunction)` returns, with its closure state. */
  class PresenterHook {
    const factoryFunction: FactoryFunction
    var cachedPresenterInstance: Option<Instance>
    var viewModelOverride: Option<Override>

    function State(): Slots
      reads this
    {
      Slots(cachedPresenterInstance, viewModelOverride)
    }

    /** A cached instance only refers to objects the host has already handed out. */
    ghost predicate Valid(host: Host)
      reads this, host
    {
      cachedPresenterInstance.Some? ==> cachedPresenterInstance.value.IdsBelow(host.nextId)
    }

    /** `presenterFactory(factoryFunction)`: both holders start empty; the factory function is not run. */
    constructor(f: FactoryFunction)
      ensures factoryFunction == f && cachedPresenterInstance == None && viewModelOverride == None
    {
      factoryFunction := f;
      cachedPresenterInstance := None;
      viewModelOverride := None;
    }

    /** `usePresenterHook(props, view)`. */
    method Call(props: Arg, view: Arg, host: Host) returns (r: Result<Output, Thrown>)
      requires Valid(host)
      modifies this, host
      ensures Valid(host)
      ensures var st := Invoke(factoryFunction, props, view, old(State()), old(host.scopeActive), old(host.nextId));
        && State() == st.slots
        && r == st.result
        && host.log == old(host.log) + st.events
        && host.teardowns == old(host.teardowns) + st.registered
      ensures host.scopeActive == old(host.scopeActive) && host.nextId == old(host.nextId) + 2
    {
      var newId := host.AllocateIds();
      var produced := host.RunFactoryFunction(factoryFunction, props, view);
      if produced.Throws? {
        return Failure(produced.thrown);
      }
      var config := produced.config;

      var checked := ValidatePresenterConfig(config);
      if checked.Fail? {
        return Failure(ErrorObject(checked.error.Message()));
      }
      if viewModelOverride.Some? {
        var overrideChecked := ValidateViewModelOverride(viewModelOverride.value, config.viewModel.value);
        if overrideChecked.Fail? {
          return Failure(ErrorObject(overrideChecked.error.Message()));
        }
      }

      host.TryOnScopeDispose(config.onDestroy);

      var raised := host.CallHook(config.onCreated, "onCreated");
      if raised.Some? {
        return Failure(raised.value);
      }

      var presenter :=
        if viewModelOverride.Some? then CreatePresenterProxy(newId + 1, newId, config, viewModelOverride.value)
        else Plain(newId, config);
      cachedPresenterInstance := Some(presenter);
      viewModelOverride := None;
      r := Success(OutputOf(presenter));
    }

    /** `usePresenterHook.spy()`. */
    method Spy() returns (r: Result<Output, Thrown>)
      modifies this
      ensures (State(), r) == SpyStep(old(State()))
    {
      if cachedPresenterInstance.None? {
        return Failure(Raw(Text(Errors.NoPresenterInstance())));
      }
      var presenter := cachedPresenterInstance.value;
      cachedPresenterInstance := None;
      r := Success(OutputOf(presenter));
    }

    /** `usePresenterHook.resetSpy()`: empties the cache holder; never throws. */
    method ResetSpy()
      modifies this
      ensures cachedPresenterInstance == None && viewModelOverride == old(viewModelOverride)
    {
      cachedPresenterInstance := None;
    }

    /** `usePresenterHook.mockViewModel(f)`: replaces the pending override. */
    method MockViewModel(f: Override)
      modifies this
      ensures viewModelOverride == Some(f) && cachedPresenterInstance == old(cachedPresenterInstance)
    {
      viewModelOverride := Some(f);
    }
  }
}
