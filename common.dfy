/** Values, service keys and errors shared by the whole container model. */
module Common {

  datatype Option<+T> = None | Some(value: T)

  datatype Result<+T> = Ok(value: T) | Err(error: Error)

  /** Every way a registration, a resolution or a locator call can fail. */
  datatype Error =
    | NoMatchingFactory          // resolveFactory: zero entries with the requested tags key
    | AmbiguousFactories         // resolveFactory: more than one entry with that tags key
    | StackOverflow              // a build nested deeper than the available fuel
    | NotAnArray                 // provider: getDependencies did not return an array
    | NotIterable                // spread of a value that is not iterable
    | NotAnObject                // property access on a value that is not an object
    | DuplicateInjection         // injectable: position already supplied by getDependencies
    | NotAnInteger               // toInteger: the key is not the string of its parseInt
    | FunctionThrew              // a user function (e.g. a class called without new) threw
    | DuplicateRegistration      // checkSanity: two entries of one key share a tags key
    | MissingGetDependencies     // provider used without a getDependencies function
    | AlreadyBound               // locator: container set twice
    | NotBound                   // locator: used before a container was set
    | UnsupportedService         // locator: key outside getSupportedServices()
    | DuplicateNamespace         // plugin loader: namespace already taken

  /** A service key: a string, a number, a symbol, or a function (class) handle. */
  datatype Key = KString(s: string) | KNumber(n: int) | KSymbol(sym: nat) | KFunction(fn: nat)

  /** A JavaScript value as far as the container can observe it. Objects live in a heap. */
  datatype Value =
    | Undefined
    | Null
    | Bool(b: bool)
    | Num(n: int)
    | Str(s: string)
    | Fn(fn: nat)
    | Ref(addr: nat)
    | Arr(items: seq<Value>)

  /** JavaScript truthiness (`if (v)`, `!v`, `v || w`). */
  predicate Truthy(v: Value) {
    match v
    case Undefined => false
    case Null => false
    case Bool(b) => b
    case Num(n) => n != 0
    case Str(s) => s != ""
    case _ => true
  }

  /** An object made by `new Klass(...args)`; wirers assign its fields afterwards. */
  datatype Obj = Obj(klass: nat, args: seq<Value>, fields: map<string, Value>)
}
