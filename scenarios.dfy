/**
 * The behaviour __tests__/presenter-factory.test.ts pins down, stated as
 * client code of `PresenterHook`: each method builds a fresh host and hook,
 * runs the steps of one test and promises what that test expects.
 */
module PresenterScenarios {
  import opened Wrappers
  import opened PresenterTypes
  import opened Validators
  import opened PresenterFactory
  import Errors

  /** A factory function that always returns `config`. */
  function Constant(config: Config): FactoryFunction {
    (props: Arg, view: Arg) => Returns(config)
  }

  /** A configuration the hook resolves without an override. */
  predicate Resolvable(config: Config) {
    ValidatePresenterConfig(config) == Pass && CallOptional(config.onCreated, "onCreated").1.None?
  }

  /** A property of a view model is what reading its name yields. */
  lemma LookupUnique(obj: ViewModel, i: nat)
    requires i < |obj|
    ensures Lookup(obj, obj[i].key) == DataSlot(obj[i].value)
  {
    assert forall j :: 0 <= j < i ==> obj[j].key != obj[i].key;
  }

  /**
   * Two view models whose properties named `k` sit at the same index with the
   * same value, and which hold `k` alike, read `k` alike.
   */
  lemma LookupAgrees(a: ViewModel, b: ViewModel, k: string)
    requires HasKey(a, k) <==> HasKey(b, k)
    requires forall i :: 0 <= i < |a| && a[i].key == k ==> i < |b| && b[i] == a[i]
    ensures Lookup(a, k) == Lookup(b, k)
  {
    if HasKey(a, k) {
      var i :| 0 <= i < |a| && a[i].key == k;
      LookupUnique(a, i);
      LookupUnique(b, i);
    }
  }

  /** `{ ...vm, [p.key]: p.value }`: `p.key` reads `p.value`, every other name reads as before. */
  function Assign(vm: ViewModel, p: Property): (r: ViewModel)
    ensures Keys(r) == if HasKey(vm, p.key) then Keys(vm) else Keys(vm) + [p.key]
    ensures Lookup(r, p.key) == DataSlot(p.value)
    ensures forall k :: k != p.key ==> Lookup(r, k) == Lookup(vm, k)
  {
    if HasKey(vm, p.key) then
      var r: ViewModel := seq(|vm|, i requires 0 <= i < |vm| => if vm[i].key == p.key then p else vm[i]);
      assert Keys(r) == Keys(vm);
      var at :| 0 <= at < |vm| && vm[at].key == p.key;
      LookupUnique(r, at);
      assert forall k :: k != p.key ==> Lookup(r, k) == Lookup(vm, k) by {
        forall k | k != p.key ensures Lookup(r, k) == Lookup(vm, k) {
          LookupAgrees(vm, r, k);
        }
      }
      r
    else
      var r: ViewModel := vm + [p];
      assert Keys(r) == Keys(vm) + [p.key];
      LookupUnique(r, |vm|);
      assert forall k :: k != p.key ==> Lookup(r, k) == Lookup(vm, k) by {
        forall k | k != p.key ensures Lookup(r, k) == Lookup(vm, k) {
          LookupAgrees(vm, r, k);
        }
      }
      r
  }

  /** Lines 11-21: building the hook runs nothing; one call runs the factory function once. */
  method CallbackRunsOnlyWhenHookIsCalled(f: FactoryFunction) returns (before: seq<Event>, after: seq<Event>)
    ensures before == []
    ensures |after| >= 1 && after[0] == FactoryFunctionCalled(NoArg, NoArg)
    ensures forall i :: 1 <= i < |after| ==> !after[i].FactoryFunctionCalled?
  {
    var host := new Host(false);
    var hook := new PresenterHook(f);
    before := host.log;
    var _ := hook.Call(NoArg, NoArg, host);
    after := host.log;
    InvokeCallsFactoryFunctionOnce(f, NoArg, NoArg, Slots(None, None), false, 0);
  }

  /** Lines 23-47: mounting calls `onCreated` once; only unmounting calls `onDestroy`, once. */
  method LifecycleHooksRun(createdId: nat, destroyedId: nat) returns (afterMount: seq<Event>, afterUnmount: seq<Event>)
    ensures afterMount == [FactoryFunctionCalled(NoArg, NoArg), HookCalled("onCreated", createdId)]
    ensures afterUnmount == afterMount + [HookCalled("onDestroy", destroyedId)]
  {
    var config := Config(ViewModelRef(true, []), Callable(createdId, None), Callable(destroyedId, None), []);
    var host := new Host(true);
    var hook := new PresenterHook(Constant(config));
    var _ := hook.Call(NoArg, NoArg, host);
    afterMount := host.log;
    var _ := host.EndScope();
    afterUnmount := host.log;
  }

  /** Lines 49-59: a view model that is not read-only (a ref, `{}`, `null`) is rejected. */
  method NonComputedViewModelRejected(config: Config) returns (r: Result<Output, Thrown>)
    requires !config.viewModel.readonly
    ensures r == Failure(ErrorObject(Errors.ViewModelIsNotComputed()))
  {
    var host := new Host(false);
    var hook := new PresenterHook(Constant(config));
    r := hook.Call(NoArg, NoArg, host);
  }

  /** Lines 61-70: a call returns the presenter and its view model. */
  method ReturnsPresenterAndViewModel(config: Config) returns (r: Result<Output, Thrown>)
    requires Resolvable(config)
    ensures r.Success? && r.value.viewModel == config.viewModel
    ensures forall name :: r.value.presenter.Get(name) == ReadConfig(config, name)
  {
    var host := new Host(false);
    var hook := new PresenterHook(Constant(config));
    r := hook.Call(NoArg, NoArg, host);
  }

  /** Lines 72-78: what the factory function throws reaches the caller unchanged. */
  method FactoryErrorsAreNotSwallowed(thrown: Thrown) returns (r: Result<Output, Thrown>)
    ensures r == Failure(thrown)
  {
    var host := new Host(false);
    var hook := new PresenterHook((props: Arg, view: Arg) => Throws(thrown));
    r := hook.Call(NoArg, NoArg, host);
  }

  /** Lines 82-115: one spy per resolved instance; two hooks keep separate caches. */
  method OneSpyPerInstance(config: Config, other: Config)
    returns (second: Result<Output, Thrown>, rounds: seq<Result<Output, Thrown>>, mine: Result<Output, Thrown>,
             theirs: Result<Output, Thrown>)
    requires Resolvable(config) && Resolvable(other)
    ensures second == Failure(Raw(Text(Errors.NoPresenterInstance())))
    ensures |rounds| == 3 && forall i :: 0 <= i < 3 ==> rounds[i].Success?
    ensures mine.Success? && mine.value.viewModel == config.viewModel
    ensures theirs.Success? && theirs.value.viewModel == other.viewModel
  {
    var host := new Host(false);
    var hook := new PresenterHook(Constant(config));
    var _ := hook.Call(NoArg, NoArg, host);
    var _ := hook.Spy();
    second := hook.Spy();

    rounds := [];
    var k := 0;
    while k < 3
      invariant 0 <= k <= 3 && |rounds| == k
      invariant forall i :: 0 <= i < k ==> rounds[i].Success?
      invariant hook.factoryFunction == Constant(config) && hook.viewModelOverride == None
      invariant hook.Valid(host)
    {
      var _ := hook.Call(NoArg, NoArg, host);
      var spied := hook.Spy();
      rounds := rounds + [spied];
      k := k + 1;
    }

    var otherHook := new PresenterHook(Constant(other));
    var _ := hook.Call(NoArg, NoArg, host);
    var _ := otherHook.Call(NoArg, NoArg, host);
    mine := hook.Spy();
    theirs := otherHook.Spy();
  }

  /** Lines 117-138: a spy keeps the instance it took; a later call resolves a different object. */
  method SpyKeepsEarlierInstance(config: Config) returns (spied: Instance, later: Instance)
    requires Resolvable(config)
    ensures spied.id != later.id
  {
    var host := new Host(false);
    var hook := new PresenterHook(Constant(config));
    var _ := hook.Call(NoArg, NoArg, host);
    var s := hook.Spy();
    spied := s.value.presenter;
    assert spied.IdsBelow(host.nextId);
    var r := hook.Call(NoArg, NoArg, host);
    later := r.value.presenter;
  }

  /** Lines 140-156: the spy returns the very instance the call resolved. */
  method SpyReturnsResolvedInstance(config: Config) returns (resolved: Output, spied: Output)
    requires Resolvable(config)
    ensures spied == resolved
  {
    var host := new Host(false);
    var hook := new PresenterHook(Constant(config));
    var r := hook.Call(NoArg, NoArg, host);
    resolved := r.value;
    var s := hook.Spy();
    spied := s.value;
  }

  /** Lines 160-210: a mock applies to the next resolved instance only. */
  method MockAppliesOnce(config: Config, o: Override) returns (first: Output, second: Output)
    requires Resolvable(config)
    requires KeySet(o(config.viewModel.value)) == KeySet(config.viewModel.value)
    ensures first.viewModel == ViewModelRef(true, o(config.viewModel.value))
    ensures second.viewModel == config.viewModel
  {
    OverrideAcceptedIffSameKeys(o, config.viewModel.value);
    var host := new Host(false);
    var hook := new PresenterHook(Constant(config));
    hook.MockViewModel(o);
    var r1 := hook.Call(NoArg, NoArg, host);
    first := r1.value;
    var r2 := hook.Call(NoArg, NoArg, host);
    second := r2.value;
  }

  /** `() => vm`: an override that ignores the real view model. */
  function ConstantOverride(vm: ViewModel): Override {
    (x: ViewModel) => vm
  }

  /** `delete vm[vm[i].key]`: the view model without its property at index `i`; every other name reads as before. */
  function RemoveAt(vm: ViewModel, i: nat): (r: ViewModel)
    requires i < |vm|
    ensures Keys(r) == Keys(vm[..i]) + Keys(vm[i + 1..])
    ensures !HasKey(r, vm[i].key)
    ensures forall k :: k != vm[i].key ==> Lookup(r, k) == Lookup(vm, k)
  {
    var rest: seq<Property> := vm[..i] + vm[i + 1..];
    assert forall j :: 0 <= j < |rest| ==> rest[j] == vm[if j < i then j else j + 1];
    assert UniqueKeys(rest) by {
      forall a, b | 0 <= a < b < |rest| ensures rest[a].key != rest[b].key {
        assert rest[a] == vm[if a < i then a else a + 1] && rest[b] == vm[if b < i then b else b + 1];
      }
    }
    assert Keys(rest) == Keys(vm[..i]) + Keys(vm[i + 1..]);
    var r: ViewModel := rest;
    assert forall k :: k != vm[i].key ==> Lookup(r, k) == Lookup(vm, k) by {
      forall k | k != vm[i].key ensures Lookup(r, k) == Lookup(vm, k) {
        if HasKey(vm, k) {
          var j :| 0 <= j < |vm| && vm[j].key == k;
          var at := if j < i then j else j - 1;
          assert r[at] == vm[j];
          LookupUnique(vm, j);
          LookupUnique(r, at);
        }
      }
    }
    r
  }

  lemma KeysAppend(x: seq<Property>, y: seq<Property>)
    ensures Keys(x + y) == Keys(x) + Keys(y)
  {
  }

  /** Names drawn from a list that an object holds in full are never reported. */
  lemma AllPresent(keys: seq<string>, present: seq<string>, obj: seq<Property>)
    requires Keys(obj) == present
    requires forall k :: k in keys ==> k in present
    ensures KeysNotIn(keys, obj) == []
  {
    KeysNotInEmptyIff(keys, obj);
  }

  /** `(vm) => ({ ...vm, [extra.key]: extra.value })`. */
  function AddProperty(extra: Property): Override {
    (vm: ViewModel) => Assign(vm, extra)
  }

  /** A mock that adds one property the real view model lacks is reported naming exactly that property. */
  lemma ExtraPropertyReported(actual: ViewModel, extra: Property)
    requires !HasKey(actual, extra.key)
    ensures ValidateViewModelOverride(AddProperty(extra), actual) == Fail(NonExistingProperties([extra.key]))
  {
    var mocked := AddProperty(extra)(actual);
    assert mocked == Assign(actual, extra);
    KeysNotInAppend(Keys(actual), [extra.key], actual);
    AllPresent(Keys(actual), Keys(actual), actual);
    assert KeysNotIn([extra.key], actual) == [extra.key];
    assert KeysNotIn(Keys(mocked), actual) == [extra.key];
    AllPresent(Keys(actual), Keys(actual) + [extra.key], mocked);
  }

  /** An object holding every name of `actual` but the one at index `i` lacks exactly that name. */
  lemma DroppedKeyOnlyMissing(actual: ViewModel, i: nat, removed: ViewModel)
    requires i < |actual|
    requires Keys(removed) == Keys(actual[..i]) + Keys(actual[i + 1..]) && !HasKey(removed, actual[i].key)
    ensures KeysNotIn(Keys(actual), removed) == [actual[i].key]
  {
    var key := actual[i].key;
    var front, back := Keys(actual[..i]), Keys(actual[i + 1..]);
    assert actual == actual[..i] + [actual[i]] + actual[i + 1..];
    KeysAppend(actual[..i] + [actual[i]], actual[i + 1..]);
    KeysAppend(actual[..i], [actual[i]]);
    assert Keys(actual) == front + [key] + back;
    KeysNotInAppend(front + [key], back, removed);
    KeysNotInAppend(front, [key], removed);
    AllPresent(front, front + back, removed);
    AllPresent(back, front + back, removed);
    assert KeysNotIn([key], removed) == [key];
  }

  /** A mock that drops the property at index `i` is reported naming exactly that property. */
  lemma MissingPropertyReported(actual: ViewModel, i: nat)
    requires i < |actual|
    ensures ValidateViewModelOverride(ConstantOverride(RemoveAt(actual, i)), actual)
         == Fail(MissingProperties([actual[i].key]))
  {
    var removed := RemoveAt(actual, i);
    assert ConstantOverride(removed)(actual) == removed;
    assert forall k :: k in Keys(removed) ==> k in Keys(actual) by {
      KeysAppend(actual[..i], actual[i + 1..]);
      assert actual[..i] + actual[i + 1..] == removed;
    }
    AllPresent(Keys(removed), Keys(actual), actual);
    DroppedKeyOnlyMissing(actual, i, removed);
  }

  /** Lines 212-231: a mock that adds a property is rejected, naming that property. */
  method ExtraPropertyRejected(config: Config, extra: Property) returns (r: Result<Output, Thrown>)
    requires Resolvable(config)
    requires !HasKey(config.viewModel.value, extra.key)
    ensures r == Failure(ErrorObject(Errors.HasNonExistingProperties([extra.key])))
  {
    ExtraPropertyReported(config.viewModel.value, extra);
    var host := new Host(false);
    var hook := new PresenterHook(Constant(config));
    hook.MockViewModel(AddProperty(extra));
    r := hook.Call(NoArg, NoArg, host);
  }

  /** Lines 233-248: a mock that drops a property is rejected, naming that property. */
  method MissingPropertyRejected(config: Config, i: nat) returns (r: Result<Output, Thrown>)
    requires Resolvable(config)
    requires i < |config.viewModel.value|
    ensures r == Failure(ErrorObject(Errors.PropertiesAreMissing([config.viewModel.value[i].key])))
  {
    MissingPropertyReported(config.viewModel.value, i);
    var host := new Host(false);
    var hook := new PresenterHook(Constant(config));
    hook.MockViewModel(ConstantOverride(RemoveAt(config.viewModel.value, i)));
    r := hook.Call(NoArg, NoArg, host);
  }

  /** Line 78: the teardown only runs `onDestroy`; the cached instance stays available to `spy()`. */
  method TeardownKeepsCache(config: Config) returns (resolved: Output, spied: Result<Output, Thrown>)
    requires Resolvable(config)
    ensures spied == Success(resolved)
  {
    var host := new Host(true);
    var hook := new PresenterHook(Constant(config));
    var r := hook.Call(NoArg, NoArg, host);
    resolved := r.value;
    var _ := host.EndScope();
    spied := hook.Spy();
  }

  /** Lines 38-50: mocking one hook does not affect another hook's calls. */
  method HooksDoNotShareOverrides(config: Config, other: Config, o: Override)
    returns (theirs: Output, mine: Output)
    requires Resolvable(config) && Resolvable(other)
    requires KeySet(o(config.viewModel.value)) == KeySet(config.viewModel.value)
    ensures theirs.viewModel == other.viewModel
    ensures mine.viewModel == ViewModelRef(true, o(config.viewModel.value))
  {
    OverrideAcceptedIffSameKeys(o, config.viewModel.value);
    var host := new Host(false);
    var hook := new PresenterHook(Constant(config));
    var otherHook := new PresenterHook(Constant(other));
    hook.MockViewModel(o);
    var r1 := otherHook.Call(NoArg, NoArg, host);
    theirs := r1.value;
    var r2 := hook.Call(NoArg, NoArg, host);
    mine := r2.value;
  }

  /** Lines 119-121: `resetSpy()` on an empty or a full holder never throws and leaves it empty. */
  method ResetSpyEmptiesTheHolder(config: Config) returns (afterFirst: Result<Output, Thrown>, afterSecond: Result<Output, Thrown>)
    requires Resolvable(config)
    ensures afterFirst == Failure(Raw(Text(Errors.NoPresenterInstance())))
    ensures afterSecond == afterFirst
  {
    var host := new Host(false);
    var hook := new PresenterHook(Constant(config));
    hook.ResetSpy();
    afterFirst := hook.Spy();
    var _ := hook.Call(NoArg, NoArg, host);
    hook.ResetSpy();
    afterSecond := hook.Spy();
  }

  /**
   * Lines 74-88: a call that throws leaves the pending override in place, so
   * it applies to the next call that resolves.
   */
  method PendingOverrideSurvivesFailedCall(config: Config, thrown: Thrown, o: Override)
    returns (failed: Result<Output, Thrown>, next: Output)
    requires Resolvable(config)
    requires KeySet(o(config.viewModel.value)) == KeySet(config.viewModel.value)
    ensures failed == Failure(thrown)
    ensures next.viewModel == ViewModelRef(true, o(config.viewModel.value))
  {
    OverrideAcceptedIffSameKeys(o, config.viewModel.value);
    var host := new Host(false);
    var hook := new PresenterHook((props: Arg, view: Arg) => if props == NoArg then Throws(thrown) else Returns(config));
    hook.MockViewModel(o);
    failed := hook.Call(NoArg, NoArg, host);
    var r := hook.Call(ArgObject(0), NoArg, host);
    next := r.value;
  }

  /**
   * Lines 80 and 10-12: a falsy `onCreated` that is not undefined or null
   * (such as `false`) passes validation, but calling it throws a TypeError
   * after the teardown is registered; nothing is cached.
   */
  method FalsyOnCreatedThrowsAfterValidation(config: Config)
    returns (r: Result<Output, Thrown>, registered: seq<Hook>, spied: Result<Output, Thrown>)
    requires config.viewModel.readonly && config.onCreated == FalsyValue && !config.onDestroy.NonFunction?
    ensures ValidatePresenterConfig(config) == Pass
    ensures r == Failure(NotAFunction("onCreated"))
    ensures registered == [config.onDestroy]
    ensures spied == Failure(Raw(Text(Errors.NoPresenterInstance())))
  {
    var host := new Host(true);
    var hook := new PresenterHook(Constant(config));
    r := hook.Call(NoArg, NoArg, host);
    registered := host.teardowns;
    spied := hook.Spy();
  }
}
