/**
 * The values the presenter factory handles: the configuration a factory
 * function returns (lib/presenter-factory.types.ts), its view model, its
 * lifecycle hooks and the values JavaScript code throws.  Vue's reactivity is
 * reduced to what the factory observes of it: whether `viewModel` is
 * read-only, and the current value of a computed view model.
 */
module PresenterTypes {
  import opened Wrappers

  /** A JavaScript value held by a property; an object is known by its identity only. */
  datatype Value =
    | Undefined
    | Null
    | Boolean(b: bool)
    | Number(n: int)
    | Text(s: string)
    | ObjectRef(id: nat)

  /** One own enumerable property of a plain object. */
  datatype Property = Property(key: string, value: Value)

  /**
   * `Object.keys(obj)` for an object whose property names are not array
   * indices: the names in insertion order.  (JavaScript lists array-index
   * names such as "0" first, in numeric order; such names are not modelled.)
   */
  function Keys(obj: seq<Property>): (keys: seq<string>)
    ensures |keys| == |obj|
    ensures forall i :: 0 <= i < |obj| ==> keys[i] == obj[i].key
  {
    seq(|obj|, i requires 0 <= i < |obj| => obj[i].key)
  }

  /** `key in obj` for a plain object. */
  predicate HasKey(obj: seq<Property>, key: string) {
    key in Keys(obj)
  }

  /** The set of property names of an object. */
  function KeySet(obj: seq<Property>): set<string> {
    set k | k in Keys(obj)
  }

  /** A JavaScript object never holds two properties with the same name. */
  predicate UniqueKeys(obj: seq<Property>) {
    forall i, j :: 0 <= i < j < |obj| ==> obj[i].key != obj[j].key
  }

  /** A view model: the plain object a computed `viewModel` evaluates to. */
  type ViewModel = obj: seq<Property> | UniqueKeys(obj) witness []

  /**
   * The `viewModel` property of a configuration.  `readonly` is what Vue's
   * `isReadonly` answers (true for a `computed`, false for a plain `ref`, a
   * plain object or `null`); `value` is the current value of a computed.
   */
  datatype ViewModelRef = ViewModelRef(readonly: bool, value: ViewModel)

  /** A value thrown by a `throw` statement or by the JavaScript engine. */
  datatype Thrown =
    | ErrorObject(message: string)        // `new Error(message)`
    | Raw(value: Value)                   // any other value thrown as it is, such as a string
    | NotAFunction(property: string)      // the engine's TypeError for calling a non-function

  /**
   * The value of an optional lifecycle hook property (`onCreated`, `onDestroy`).
   * A callable hook is a user function known by `id`; `raises` is what it
   * throws when called, if anything.
   */
  datatype Hook =
    | Absent                                  // undefined or null
    | FalsyValue                              // false, 0, "" or NaN
    | Callable(id: nat, raises: Option<Thrown>)
    | NonFunction                             // any other truthy value
  {
    /** Whether the value is truthy in JavaScript. */
    predicate Truthy() {
      Callable? || NonFunction?
    }

    /** Whether `typeof value === 'function'`. */
    predicate IsFunction() {
      Callable?
    }
  }

  /**
   * The properties of a configuration other than `viewModel`, `onCreated` and
   * `onDestroy`: each name at most once, and none of those three names.
   */
  type Fields = fields: seq<Property>
    | UniqueKeys(fields) && !HasKey(fields, "viewModel") && !HasKey(fields, "onCreated") && !HasKey(fields, "onDestroy")
    witness []

  /**
   * The configuration returned by a factory function: `viewModel`, the two
   * optional hooks and every other property of the object (`fields`).
   */
  datatype Config = Config(viewModel: ViewModelRef, onCreated: Hook, onDestroy: Hook, fields: Fields)

  /** The function given to `mockViewModel`: it maps the real view model to the mocked one. */
  type Override = ViewModel -> ViewModel
}
