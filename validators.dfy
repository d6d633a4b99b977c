/**
 * lib/validators.ts: the structural checks the hook runs on a configuration
 * and on a pending view-model override.  Each check is a function whose
 * outcome is the error it throws, if any.
 */
module Validators {
  import opened Wrappers
  import opened PresenterTypes
  import Errors

  /** What `validatePresenterConfig` throws, in the order it checks. */
  datatype ConfigError = ViewModelIsNotComputed | OnCreatedHookNotAFunction | OnDestroyHookNotAFunction
  {
    function Message(): string {
      match this
      case ViewModelIsNotComputed => Errors.ViewModelIsNotComputed()
      case OnCreatedHookNotAFunction => Errors.OnCreatedHookNotAFunction()
      case OnDestroyHookNotAFunction => Errors.OnDestroyHookNotAFunction()
    }
  }

  /** What `validateViewModelOverride` throws, with the property names it reports. */
  datatype OverrideError = NonExistingProperties(keys: seq<string>) | MissingProperties(keys: seq<string>)
  {
    function Message(): string {
      match this
      case NonExistingProperties(keys) => Errors.HasNonExistingProperties(keys)
      case MissingProperties(keys) => Errors.PropertiesAreMissing(keys)
    }
  }

  /** A hook passes its check unless it is truthy and not a function. */
  predicate HookAccepted(h: Hook) {
    !(h.Truthy() && !h.IsFunction())
  }

  /**
   * `validatePresenterConfig(config)`: it throws exactly for a view model that
   * is not read-only or a hook that is truthy but not a function, and every
   * error it throws is a PRESENTER_CONFIG message.
   */
  function ValidatePresenterConfig(config: Config): (r: Outcome<ConfigError>)
    ensures r.Fail? <==> !config.viewModel.readonly || config.onCreated.NonFunction? || config.onDestroy.NonFunction?
    ensures r.Fail? ==> Errors.PresenterConfigInfo <= r.error.Message()
  {
    if !config.viewModel.readonly then Fail(ViewModelIsNotComputed)
    else if !HookAccepted(config.onCreated) then Fail(OnCreatedHookNotAFunction)
    else if !HookAccepted(config.onDestroy) then Fail(OnDestroyHookNotAFunction)
    else Pass
  }

  /** A configuration passes exactly when its view model is read-only and neither hook is a truthy non-function. */
  lemma ConfigAcceptedIff(config: Config)
    ensures ValidatePresenterConfig(config) == Pass <==>
      config.viewModel.readonly && !config.onCreated.NonFunction? && !config.onDestroy.NonFunction?
  {
  }

  /** Only the first failing check is reported, in the order viewModel, onCreated, onDestroy. */
  lemma ConfigFirstFailureReported(config: Config)
    ensures ValidatePresenterConfig(config) == Fail(ViewModelIsNotComputed) <==> !config.viewModel.readonly
    ensures ValidatePresenterConfig(config) == Fail(OnCreatedHookNotAFunction) <==>
      config.viewModel.readonly && config.onCreated.NonFunction?
    ensures ValidatePresenterConfig(config) == Fail(OnDestroyHookNotAFunction) <==>
      config.viewModel.readonly && !config.onCreated.NonFunction? && config.onDestroy.NonFunction?
  {
  }

  /** Absent and falsy hooks pass the check, whatever else the configuration holds. */
  lemma FalsyHooksAccepted(config: Config)
    requires config.viewModel.readonly
    requires !config.onCreated.Truthy() && !config.onDestroy.Truthy()
    ensures ValidatePresenterConfig(config) == Pass
  {
  }

  /** `A` is a subsequence of `b`: `a` is `b` with some elements dropped, order kept. */
  ghost predicate IsSubsequence(a: seq<string>, b: seq<string>)
    decreases |b|
  {
    if a == [] then true
    else if b == [] then false
    else (a[0] == b[0] && IsSubsequence(a[1..], b[1..])) || IsSubsequence(a, b[1..])
  }

  /** No name occurs twice. */
  predicate Distinct(names: seq<string>) {
    forall i, j :: 0 <= i < j < |names| ==> names[i] != names[j]
  }

  /** `keys.filter(key => !(key in obj))`. */
  function KeysNotIn(keys: seq<string>, obj: seq<Property>): (r: seq<string>)
    ensures forall k :: k in r <==> k in keys && !HasKey(obj, k)
    ensures IsSubsequence(r, keys)
    ensures Distinct(keys) ==> Distinct(r)
  {
    if keys == [] then []
    else if HasKey(obj, keys[0]) then KeysNotIn(keys[1..], obj)
    else [keys[0]] + KeysNotIn(keys[1..], obj)
  }

  /**
   * `validateViewModelOverride(override, actual)`: every error it throws is a
   * VIEW_MODEL_MOCKING message naming at least one property, each named once.
   */
  function ValidateViewModelOverride(viewModelOverride: Override, actual: ViewModel): (r: Outcome<OverrideError>)
    ensures r.Fail? ==> Errors.ViewModelMockingInfo <= r.error.Message()
    ensures r.Fail? ==> r.error.keys != []
    ensures r.Fail? ==> Distinct(r.error.keys)
  {
    var mocked := viewModelOverride(actual);
    var nonExisting := KeysNotIn(Keys(mocked), actual);
    var missing := KeysNotIn(Keys(actual), mocked);
    if |nonExisting| > 0 then Fail(NonExistingProperties(nonExisting))
    else if |missing| > 0 then Fail(MissingProperties(missing))
    else Pass
  }

  lemma KeysNotInEmptyIff(keys: seq<string>, obj: seq<Property>)
    ensures KeysNotIn(keys, obj) == [] <==> forall k :: k in keys ==> HasKey(obj, k)
  {
    var r := KeysNotIn(keys, obj);
    if r != [] {
      assert r[0] in r;
    }
  }

  /** Filtering a concatenation filters each part. */
  lemma {:induction false} KeysNotInAppend(a: seq<string>, b: seq<string>, obj: seq<Property>)
    ensures KeysNotIn(a + b, obj) == KeysNotIn(a, obj) + KeysNotIn(b, obj)
  {
    if a != [] {
      assert (a + b)[0] == a[0] && (a + b)[1..] == a[1..] + b;
      KeysNotInAppend(a[1..], b, obj);
    } else {
      assert a + b == b;
    }
  }

  /** An override is accepted exactly when the mocked view model has the same property names as the real one. */
  lemma OverrideAcceptedIffSameKeys(viewModelOverride: Override, actual: ViewModel)
    ensures ValidateViewModelOverride(viewModelOverride, actual) == Pass <==>
      KeySet(viewModelOverride(actual)) == KeySet(actual)
  {
    var mocked := viewModelOverride(actual);
    KeysNotInEmptyIff(Keys(mocked), actual);
    KeysNotInEmptyIff(Keys(actual), mocked);
    if KeySet(mocked) == KeySet(actual) {
      assert forall k :: k in Keys(mocked) ==> k in KeySet(mocked);
      assert forall k :: k in Keys(actual) ==> k in KeySet(actual);
    }
  }

  /**
   * When the mocked view model has names the real one lacks, exactly those
   * names are reported, in the mocked view model's key order, whatever else
   * is missing.
   */
  lemma OverrideNonExistingReported(viewModelOverride: Override, actual: ViewModel)
    requires !(KeySet(viewModelOverride(actual)) <= KeySet(actual))
    ensures var r := ValidateViewModelOverride(viewModelOverride, actual);
      && r.Fail? && r.error.NonExistingProperties?
      && |r.error.keys| > 0
      && (forall k :: k in r.error.keys <==> k in KeySet(viewModelOverride(actual)) - KeySet(actual))
      && IsSubsequence(r.error.keys, Keys(viewModelOverride(actual)))
  {
    var mocked := viewModelOverride(actual);
    var k :| k in KeySet(mocked) && k !in KeySet(actual);
    assert k in KeysNotIn(Keys(mocked), actual);
  }

  /**
   * When no name is extra but some are missing, exactly the missing names are
   * reported, in the real view model's key order.
   */
  lemma OverrideMissingReported(viewModelOverride: Override, actual: ViewModel)
    requires KeySet(viewModelOverride(actual)) < KeySet(actual)
    ensures var r := ValidateViewModelOverride(viewModelOverride, actual);
      && r.Fail? && r.error.MissingProperties?
      && |r.error.keys| > 0
      && (forall k :: k in r.error.keys <==> k in KeySet(actual) - KeySet(viewModelOverride(actual)))
      && IsSubsequence(r.error.keys, Keys(actual))
  {
    var mocked := viewModelOverride(actual);
    KeysNotInEmptyIff(Keys(mocked), actual);
    assert forall k :: k in Keys(mocked) ==> k in KeySet(mocked);
    var k :| k in KeySet(actual) && k !in KeySet(mocked);
    assert k in KeysNotIn(Keys(actual), mocked);
  }
}
