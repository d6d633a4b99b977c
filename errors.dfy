/**
 * The `ERROR` catalog of lib/constants/error.ts: fixed messages, message
 * getters and message builders.  The texts are assembled from the pieces the
 * source's template literals are made of; a builder embeds a list of property
 * names by JavaScript's default array-to-string conversion.
 */
module Errors {

  /** The text every message of the catalog starts with. */
  const Origin := "PresenterFactory: "

  // ERROR.PRESENTER_CONFIG

  const PresenterConfigInfo := Origin + "The configuration returned by the factory function is invalid."

  /** " The '<property>' property must be <requirement>." */
  function PropertyMustBe(property: string, requirement: string): string {
    " The '" + property + "' property must be " + requirement + "."
  }

  function ViewModelIsNotComputed(): (m: string)
    ensures PresenterConfigInfo <= m
  {
    InfoPrefix(PresenterConfigInfo, PropertyMustBe("viewModel", "a Vue computed property"));
    PresenterConfigInfo + PropertyMustBe("viewModel", "a Vue computed property")
  }

  function OnCreatedHookNotAFunction(): (m: string)
    ensures PresenterConfigInfo <= m
  {
    InfoPrefix(PresenterConfigInfo, PropertyMustBe("onCreated", "a function"));
    PresenterConfigInfo + PropertyMustBe("onCreated", "a function")
  }

  function OnDestroyHookNotAFunction(): (m: string)
    ensures PresenterConfigInfo <= m
  {
    InfoPrefix(PresenterConfigInfo, PropertyMustBe("onDestroy", "a function"));
    PresenterConfigInfo + PropertyMustBe("onDestroy", "a function")
  }

  // ERROR.VIEW_MODEL_MOCKING

  const ViewModelMockingInfo := Origin + "The mocked view model is invalid."

  /** The joined names stand right after INFO and " Properties ". */
  function PropertiesAreMissing(properties: seq<string>): (m: string)
    ensures ViewModelMockingInfo <= m
    ensures var start := |ViewModelMockingInfo + " Properties "|;
      start + |ArrayToString(properties)| <= |m|
      && m[start..start + |ArrayToString(properties)|] == ArrayToString(properties)
  {
    var head := ViewModelMockingInfo + " Properties ";
    var m := head + ArrayToString(properties) + " are missing in the mocked view model.";
    assert m[..|ViewModelMockingInfo|] == ViewModelMockingInfo;
    assert m[|head|..|head| + |ArrayToString(properties)|] == ArrayToString(properties);
    m
  }

  /** The joined names stand right after INFO and " Mocked view model properties ". */
  function HasNonExistingProperties(properties: seq<string>): (m: string)
    ensures ViewModelMockingInfo <= m
    ensures var start := |ViewModelMockingInfo + " Mocked view model properties "|;
      start + |ArrayToString(properties)| <= |m|
      && m[start..start + |ArrayToString(properties)|] == ArrayToString(properties)
  {
    var head := ViewModelMockingInfo + " Mocked view model properties ";
    var m := head + ArrayToString(properties) + " doesn't exist in the actual view model.";
    assert m[..|ViewModelMockingInfo|] == ViewModelMockingInfo;
    assert m[|head|..|head| + |ArrayToString(properties)|] == ArrayToString(properties);
    m
  }

  // ERROR.SPYING

  const SpyingInfo := Origin + "Failed to spy on presenter."

  function NoPresenterInstance(): (m: string)
    ensures SpyingInfo <= m
  {
    InfoPrefix(SpyingInfo, " Did you call your presenter hook before calling spy().");
    SpyingInfo + " Did you call your presenter hook before calling spy()."
  }

  /**
   * `${items}` for an array of strings: JavaScript converts the array with
   * `Array.prototype.toString`, which joins the elements with ",".
   */
  function ArrayToString(items: seq<string>): (r: string)
    ensures items != [] ==> items[0] <= r
    ensures items != [] && CommaFree(items) ==> multiset(r)[','] == |items| - 1
  {
    if |items| == 0 then ""
    else if |items| == 1 then items[0]
    else items[0] + "," + ArrayToString(items[1..])
  }

  /** Splits a text at every ","; the inverse of `ArrayToString` on comma-free names. */
  function Split(s: string): (parts: seq<string>)
    ensures |parts| >= 1
  {
    if s == [] then [""]
    else
      var rest := Split(s[1..]);
      if s[0] == ',' then [""] + rest
      else [[s[0]] + rest[0]] + rest[1..]
  }

  predicate CommaFree(items: seq<string>) {
    forall i :: 0 <= i < |items| ==> ',' !in items[i]
  }

  lemma {:induction false} SplitCommaFree(p: string)
    requires ',' !in p
    ensures Split(p) == [p]
  {
    if p != [] {
      SplitCommaFree(p[1..]);
      assert [p[0]] + p[1..] == p;
    }
  }

  lemma {:induction false} SplitAtComma(p: string, t: string)
    requires ',' !in p
    ensures Split(p + "," + t) == [p] + Split(t)
  {
    var s := p + "," + t;
    if p == [] {
      assert s[0] == ',' && s[1..] == t;
    } else {
      assert s[0] == p[0] && s[1..] == p[1..] + "," + t;
      SplitAtComma(p[1..], t);
      assert [p[0]] + p[1..] == p;
    }
  }

  /** The list a builder embeds can be read back from its text when no name holds a ",". */
  lemma {:induction false} SplitArrayToString(items: seq<string>)
    requires |items| > 0 && CommaFree(items)
    ensures Split(ArrayToString(items)) == items
  {
    if |items| == 1 {
      SplitCommaFree(items[0]);
    } else {
      SplitAtComma(items[0], ArrayToString(items[1..]));
      SplitArrayToString(items[1..]);
      assert [items[0]] + items[1..] == items;
    }
  }

  lemma StripAffixes(a: string, x: string, y: string, b: string)
    requires a + x + b == a + y + b
    ensures x == y
  {
    var s := a + x + b;
    assert |x| == |y|;
    assert x == s[|a|..|a| + |x|];
    assert y == (a + y + b)[|a|..|a| + |y|];
  }

  lemma PrefixOfConcat(a: string, b: string, c: string)
    requires a <= b
    ensures a <= b + c
  {
    assert (b + c)[..|a|] == b[..|a|];
  }

  /** Every message of the catalog starts with "PresenterFactory: ". */
  lemma MessagesStartWithOrigin(properties: seq<string>)
    ensures Origin <= ViewModelIsNotComputed()
    ensures Origin <= OnCreatedHookNotAFunction()
    ensures Origin <= OnDestroyHookNotAFunction()
    ensures Origin <= PropertiesAreMissing(properties)
    ensures Origin <= HasNonExistingProperties(properties)
    ensures Origin <= NoPresenterInstance()
  {
    PrefixOfConcat(Origin, Origin, "The configuration returned by the factory function is invalid.");
    PrefixOfConcat(Origin, Origin, "The mocked view model is invalid.");
    PrefixOfConcat(Origin, Origin, "Failed to spy on presenter.");
    PrefixOfConcat(Origin, PresenterConfigInfo, PropertyMustBe("viewModel", "a Vue computed property"));
    PrefixOfConcat(Origin, PresenterConfigInfo, PropertyMustBe("onCreated", "a function"));
    PrefixOfConcat(Origin, PresenterConfigInfo, PropertyMustBe("onDestroy", "a function"));
    var list := ArrayToString(properties);
    PrefixOfConcat(Origin, ViewModelMockingInfo, " Properties ");
    PrefixOfConcat(Origin, ViewModelMockingInfo + " Properties ", list);
    PrefixOfConcat(Origin, ViewModelMockingInfo + " Properties " + list, " are missing in the mocked view model.");
    PrefixOfConcat(Origin, ViewModelMockingInfo, " Mocked view model properties ");
    PrefixOfConcat(Origin, ViewModelMockingInfo + " Mocked view model properties ", list);
    PrefixOfConcat(Origin, ViewModelMockingInfo + " Mocked view model properties " + list,
      " doesn't exist in the actual view model.");
    PrefixOfConcat(Origin, SpyingInfo, " Did you call your presenter hook before calling spy().");
  }

  /** Two "must be" sentences about equally long property names agree only on the same name. */
  lemma PropertyMustBeNames(p: string, r: string, q: string, s: string)
    requires |p| == |q| && PropertyMustBe(p, r) == PropertyMustBe(q, s)
    ensures p == q
  {
    assert p == PropertyMustBe(p, r)[6..6 + |p|];
    assert q == PropertyMustBe(q, s)[6..6 + |q|];
  }

  lemma InfoPrefix(info: string, suffix: string)
    ensures info <= info + suffix
  {
    assert (info + suffix)[..|info|] == info;
  }

  /** The three PRESENTER_CONFIG messages extend INFO and are pairwise distinct. */
  lemma ConfigMessagesDistinct()
    ensures PresenterConfigInfo <= ViewModelIsNotComputed()
    ensures PresenterConfigInfo <= OnCreatedHookNotAFunction()
    ensures PresenterConfigInfo <= OnDestroyHookNotAFunction()
    ensures ViewModelIsNotComputed() != OnCreatedHookNotAFunction()
    ensures ViewModelIsNotComputed() != OnDestroyHookNotAFunction()
    ensures OnCreatedHookNotAFunction() != OnDestroyHookNotAFunction()
  {
    var vm := PropertyMustBe("viewModel", "a Vue computed property");
    var created := PropertyMustBe("onCreated", "a function");
    var destroyed := PropertyMustBe("onDestroy", "a function");
    InfoPrefix(PresenterConfigInfo, vm);
    InfoPrefix(PresenterConfigInfo, created);
    InfoPrefix(PresenterConfigInfo, destroyed);
    assert "viewModel"[0] != "onCreated"[0] && "onCreated"[2] != "onDestroy"[2];
    if vm == created { PropertyMustBeNames("viewModel", "a Vue computed property", "onCreated", "a function"); }
    if vm == destroyed { PropertyMustBeNames("viewModel", "a Vue computed property", "onDestroy", "a function"); }
    if created == destroyed { PropertyMustBeNames("onCreated", "a function", "onDestroy", "a function"); }
    if ViewModelIsNotComputed() == OnCreatedHookNotAFunction() { StripAffixes(PresenterConfigInfo, vm, created, ""); }
    if ViewModelIsNotComputed() == OnDestroyHookNotAFunction() { StripAffixes(PresenterConfigInfo, vm, destroyed, ""); }
    if OnCreatedHookNotAFunction() == OnDestroyHookNotAFunction() { StripAffixes(PresenterConfigInfo, created, destroyed, ""); }
  }

  /** The two VIEW_MODEL_MOCKING builders never produce the same text. */
  lemma MockingMessagesDistinct(ps: seq<string>, qs: seq<string>)
    ensures ViewModelMockingInfo <= PropertiesAreMissing(ps)
    ensures ViewModelMockingInfo <= HasNonExistingProperties(qs)
    ensures PropertiesAreMissing(ps) != HasNonExistingProperties(qs)
  {
    var info := ViewModelMockingInfo;
    var missing := " Properties " + ArrayToString(ps) + " are missing in the mocked view model.";
    var extra := " Mocked view model properties " + ArrayToString(qs) + " doesn't exist in the actual view model.";
    assert info + missing == PropertiesAreMissing(ps);
    assert info + extra == HasNonExistingProperties(qs);
    InfoPrefix(info, missing);
    InfoPrefix(info, extra);
    assert missing[1] == " Properties "[1] == 'P';
    assert extra[1] == " Mocked view model properties "[1] == 'M';
    assert (info + missing)[|info| + 1] == 'P';
    assert (info + extra)[|info| + 1] == 'M';
  }

  /** Distinct comma-free lists of missing properties give distinct messages. */
  lemma PropertiesAreMissingInjective(ps: seq<string>, qs: seq<string>)
    requires |ps| > 0 && |qs| > 0 && CommaFree(ps) && CommaFree(qs)
    ensures PropertiesAreMissing(ps) == PropertiesAreMissing(qs) <==> ps == qs
  {
    if PropertiesAreMissing(ps) == PropertiesAreMissing(qs) {
      StripAffixes(ViewModelMockingInfo + " Properties ", ArrayToString(ps), ArrayToString(qs),
        " are missing in the mocked view model.");
      SplitArrayToString(ps);
      SplitArrayToString(qs);
    }
  }

  /** Distinct comma-free lists of non-existing properties give distinct messages. */
  lemma HasNonExistingPropertiesInjective(ps: seq<string>, qs: seq<string>)
    requires |ps| > 0 && |qs| > 0 && CommaFree(ps) && CommaFree(qs)
    ensures HasNonExistingProperties(ps) == HasNonExistingProperties(qs) <==> ps == qs
  {
    if HasNonExistingProperties(ps) == HasNonExistingProperties(qs) {
      StripAffixes(ViewModelMockingInfo + " Mocked view model properties ", ArrayToString(ps),
        ArrayToString(qs), " doesn't exist in the actual view model.");
      SplitArrayToString(ps);
      SplitArrayToString(qs);
    }
  }
}
