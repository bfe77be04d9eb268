/**
 * The values that flow through a cached call: Python argument and result
 * values, keyword-argument dictionaries, the key joblib files a call under,
 * the errors a cached call can end with, and the wrapped function itself.
 */
module Values {

  datatype Option<+T> = None | Some(value: T)

  datatype Result<+T, +E> = Ok(value: T) | Err(error: E)

  /** The Python values a call's arguments, control flags and results may hold. */
  datatype Value =
    | NoneV
    | BoolV(b: bool)
    | IntV(i: int)
    | StrV(s: string)
    | ListV(items: seq<Value>)

  /** Python truthiness, `bool(v)`, as `if not cache_results` and `if again` use it. */
  predicate Truthy(v: Value) {
    match v
    case NoneV => false
    case BoolV(b) => b
    case IntV(i) => i != 0
    case StrV(s) => s != ""
    case ListV(items) => items != []
  }

  /** A call's keyword arguments, `**kwargs`. */
  type Kwargs = map<string, Value>

  /**
   * The identity of one call as the store sees it: the function, the
   * arguments it was called with less the ignored names, and the set of
   * ignored names. joblib binds a call to the function's signature, filling
   * in declared defaults, and then drops the ignored names; so for a function
   * that declares a parameter, ignoring it or not gives two different keys.
   * joblib hashes the key; the model keeps it whole, so two calls share an
   * entry exactly when their keys are equal.
   */
  datatype CallKey = CallKey(func: string, args: seq<Value>, kwargs: Kwargs, ignored: set<string>)

  /** The exceptions a cached call can raise. */
  datatype CacheError =
    | ParentMissing(path: string)   // ValueError: the cache directory's parent does not exist
    | NotAPath(value: Value)        // TypeError: `Path(cache_path)` of a value that is not a string
    | MissingEntry(key: CallKey)    // KeyError: reading a result the store no longer holds

  /**
   * The user's function: a deterministic body plus a counter of how many
   * times the body has run, so that "recomputes" and "does not recompute"
   * can be stated.
   */
  class TrackedFunction {
    const id: string
    const body: (seq<Value>, Kwargs) -> Value
    var invocations: nat

    constructor (id: string, body: (seq<Value>, Kwargs) -> Value)
      ensures this.id == id && this.body == body && invocations == 0
    {
      this.id := id;
      this.body := body;
      invocations := 0;
    }

    /** `func(*args, **kwargs)`: runs the body once. */
    method Invoke(args: seq<Value>, kwargs: Kwargs) returns (v: Value)
      modifies this
      ensures v == body(args, kwargs)
      ensures invocations == old(invocations) + 1
    {
      v := body(args, kwargs);
      invocations := invocations + 1;
    }
  }
}
