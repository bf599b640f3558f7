/** What `Container.resolve` and `buildValue` compute, as functions of the
    container's state: the registered factories, the value cache and the heap of
    objects the builders construct. `await` is a sequential call; `fuel` bounds
    the depth of nested builds (a build that recurses deeper fails). */
module Resolution {
  import opened Common
  import opened Strings
  import opened TagsKey
  import opened Registry
  import opened BuildSteps

  type Values = map<Key, map<string, Value>>

  /** `factories`, `values` and the objects built so far. */
  datatype State = State(factories: Registry, values: Values, heap: seq<Obj>)

  /** A step's new state and its outcome. */
  datatype Out<+T> = Out(st: State, res: Result<T>)

  /** What a getDependencies function returned, once its awaited resolves ran. */
  datatype Returned = RList(items: seq<Value>) | RObject(props: Props) | RValue(v: Value)

  /** `this.values.get(type)[tagsKey]`, undefined when either level is missing. */
  function Cached(values: Values, k: Key, tk: string): Value {
    if k in values && tk in values[k] then values[k][tk] else Undefined
  }

  /** `this.values.get(type)[tagsKey] = v`, creating the inner object if needed. */
  function Store(values: Values, k: Key, tk: string, v: Value): (r: Values)
    ensures Cached(r, k, tk) == v
    ensures forall k', tk' :: k' != k || tk' != tk ==> Cached(r, k', tk') == Cached(values, k', tk')
  {
    values[k := (if k in values then values[k] else map[])[tk := v]]
  }

  /** `new Klass(...args)`: a fresh object at the end of the heap. */
  function Construct(st: State, klass: nat, args: seq<Value>): (r: Out<Value>)
    ensures r.st.factories == st.factories && r.st.values == st.values
    ensures r.st.heap == st.heap + [Obj(klass, args, map[])] && r.res == Ok(Ref(|st.heap|))
  {
    Out(st.(heap := st.heap + [Obj(klass, args, map[])]), Ok(Ref(|st.heap|)))
  }

  /** `resolve(type)` for each key, untagged. */
  function KeyRequests(keys: seq<Key>): (es: seq<DepExpr>)
    ensures |es| == |keys| && forall i :: 0 <= i < |keys| ==> es[i] == Dep(Request(keys[i], []))
  {
    seq(|keys|, i requires 0 <= i < |keys| => Dep(Request(keys[i], [])))
  }

  /** `resolve(d.type)` for each injection, untagged. */
  function InjectionRequests(injs: seq<Injection>): (es: seq<DepExpr>)
    ensures |es| == |injs| && forall i :: 0 <= i < |injs| ==> es[i] == Dep(Request(injs[i].key, []))
  {
    seq(|injs|, i requires 0 <= i < |injs| => Dep(Request(injs[i].key, [])))
  }

  /** `Reflect.getOwnMetadata(key, Klass) || []` for a constructor. */
  function Injections(meta: Metadata, mk: MetaKey, klass: nat): seq<Injection> {
    var slot := Slot(mk, klass, None);
    if slot in meta then meta[slot] else []
  }

  /** The own properties of an array: its indices, then `length`. */
  function ArrayProps(xs: seq<Value>): (o: Props)
    ensures |o| == |xs| + 1 && o[|xs|] == ("length", Num(|xs|))
    ensures forall i :: 0 <= i < |xs| ==> o[i] == (DecimalString(i), xs[i])
  {
    seq(|xs|, i requires 0 <= i < |xs| => (DecimalString(i), xs[i])) + [("length", Num(|xs|))]
  }

  /** The characters of a string, as spreading it yields them. */
  function Chars(s: string): (vs: seq<Value>)
    ensures |vs| == |s| && forall i :: 0 <= i < |s| ==> vs[i] == Str([s[i]])
  {
    seq(|s|, i requires 0 <= i < |s| => Str([s[i]]))
  }

  /** Assigns field `f` of the object at `a`. */
  function SetField(heap: seq<Obj>, a: nat, f: string, v: Value): (h: seq<Obj>)
    requires a < |heap|
    ensures |h| == |heap| && h[a].klass == heap[a].klass && h[a].args == heap[a].args
    ensures h[a].fields == heap[a].fields[f := v]
    ensures forall b :: 0 <= b < |heap| && b != a ==> h[b] == heap[b]
  {
    heap[a := heap[a].(fields := heap[a].fields[f := v])]
  }

  // ---------------------------------------------------------------------------
  // resolve, buildValue and what the recipes do

  /** `resolve(type, tags)`: the matching entry's cached value when it is truthy,
      otherwise the value `buildValue` leaves in the cache. */
  function Resolve(st: State, meta: Metadata, req: Request, fuel: nat): (r: Out<Value>)
    ensures r.st.factories == st.factories
    ensures r.res.Ok? ==> r.res.value == Cached(r.st.values, req.key, BuildTagsKey(req.tags))
    ensures ResolveFactory(st.factories, req).Err? ==> r == Out(st, Err(ResolveFactory(st.factories, req).error))
    decreases fuel, 0, 0
  {
    match ResolveFactory(st.factories, req)
    case Err(e) => Out(st, Err(e))
    case Ok(entry) =>
      if Truthy(Cached(st.values, req.key, entry.tagsKey)) then
        Out(st, Ok(Cached(st.values, req.key, entry.tagsKey)))
      else if fuel == 0 then Out(st, Err(StackOverflow))
      else
        var b := BuildValue(st, meta, req.key, entry, fuel - 1);
        if b.res.Err? then Out(b.st, Err(b.res.error))
        else Out(b.st, Ok(Cached(b.st.values, req.key, entry.tagsKey)))
  }

  /** `buildValue`: run the builder, store its result, then run the wirer on the
      stored value. A failing wirer leaves the builder's value in the cache. */
  function BuildValue(st: State, meta: Metadata, k: Key, entry: Entry, fuel: nat): (r: Out<()>)
    ensures r.st.factories == st.factories
    decreases fuel, 4, 0
  {
    var st0 := st.(values := if k in st.values then st.values else st.values[k := map[]]);
    var b := RunBuilder(st0, meta, entry.builder, fuel);
    if b.res.Err? then Out(b.st, Err(b.res.error))
    else
      var st1 := b.st.(values := Store(b.st.values, k, entry.tagsKey, b.res.value));
      match entry.wirer
      case None => Out(st1, Ok(()))
      case Some(w) => Wire(st1, meta, Cached(st1.values, k, entry.tagsKey), w.assignments, 0, fuel)
  }

  /** The factory function of each kind of entry, given `resolve`. */
  function RunBuilder(st: State, meta: Metadata, b: Builder, fuel: nat): (r: Out<Value>)
    ensures r.st.factories == st.factories
    decreases fuel, 3, 0
  {
    match b
    case Const(v) => Out(st, Ok(v))
    case ServiceNew(klass, deps) =>
      var d := EvalList(st, meta, KeyRequests(deps), 0, [], fuel);
      if d.res.Err? then Out(d.st, Err(d.res.error)) else Construct(d.st, klass, d.res.value)
    case ProviderNew(klass, g) =>
      var d := CallDeps(st, meta, g, fuel);
      if d.res.Err? then Out(d.st, Err(d.res.error))
      else if d.res.value.RList? then Construct(d.st, klass, d.res.value.items)
      else Out(d.st, Err(NotAnArray))
    case GetterNew(klass, g) =>
      var d := CallDeps(st, meta, g, fuel);
      if d.res.Err? then Out(d.st, Err(d.res.error))
      else
        (match d.res.value
         case RList(xs) => Construct(d.st, klass, xs)
         case RValue(Str(s)) => Construct(d.st, klass, Chars(s))
         case _ => Out(d.st, Err(NotIterable)))
    case InjectableNew(klass, mk) =>
      var ordered := SortByIndex(Injections(meta, mk, klass));
      var d := EvalList(st, meta, InjectionRequests(ordered), 0, [], fuel);
      if d.res.Err? then Out(d.st, Err(d.res.error)) else Construct(d.st, klass, d.res.value)
    case PositionalNew(klass, mk, g) =>
      var injs := Injections(meta, mk, klass);
      var d := CallDeps(st, meta, g, fuel);
      if d.res.Err? then Out(d.st, Err(d.res.error))
      else if d.res.value.RValue? && Primitive(d.res.value.v) then
        var x := InjectIntoPrimitive(d.st, meta, injs, d.res.value.v, fuel);
        Out(x.st, Err(x.res.error))
      else match ProvidedProps(d.res.value)
        case Err(e) => Out(d.st, Err(e))
        case Ok(provided) =>
          var p := Inject(d.st, meta, injs, 0, provided, fuel);
          if p.res.Err? then Out(p.st, Err(p.res.error))
          else match Place(p.res.value)
            case Err(e) => Out(p.st, Err(e))
            case Ok(args) => Construct(p.st, klass, args)
  }

  /** The object the injectable builder of the decorators builder fills: an
      object's properties, or an array's indices and `length`. */
  function ProvidedProps(ret: Returned): Result<Props> {
    match ret
    case RObject(o) => Ok(o)
    case RList(xs) => Ok(ArrayProps(xs))
    case RValue(_) => Err(NotAnObject)
  }

  /** Neither an object nor a function: `undefined`, `null`, a boolean, a number or a string. */
  predicate Primitive(v: Value) {
    !(v.Ref? || v.Fn? || v.Arr?)
  }

  /** Lines 123-134 of the injectable builder when getDependencies returned the
      primitive `v`. With no injections, `Reflect.ownKeys(v)` throws. Otherwise
      the first injection's key is resolved; then a string's character at that
      index is truthy and trips the duplicate check, and in every other case
      reading `undefined[index]` or `null[index]`, or assigning to a primitive
      (class code runs in strict mode), throws. */
  function InjectIntoPrimitive(st: State, meta: Metadata, injs: seq<Injection>, v: Value, fuel: nat): (r: Out<()>)
    ensures r.st.factories == st.factories
    ensures r.res.Err?
    decreases fuel, 1, 0
  {
    if |injs| == 0 then Out(st, Err(NotAnObject))
    else
      var dep := Resolve(st, meta, Request(injs[0].key, []), fuel);
      if dep.res.Err? then Out(dep.st, Err(dep.res.error))
      else if v.Str? && injs[0].index < |v.s| then Out(dep.st, Err(DuplicateInjection))
      else Out(dep.st, Err(NotAnObject))
  }

  /** Calls a getDependencies function with `resolve`. */
  function CallDeps(st: State, meta: Metadata, g: DepsFn, fuel: nat): (r: Out<Returned>)
    ensures r.st.factories == st.factories
    decreases fuel, 2, 0
  {
    match g
    case ReturnsList(items) =>
      var d := EvalList(st, meta, items, 0, [], fuel);
      if d.res.Err? then Out(d.st, Err(d.res.error)) else Out(d.st, Ok(RList(d.res.value)))
    case ReturnsObject(props) =>
      var d := EvalProps(st, meta, props, 0, [], fuel);
      if d.res.Err? then Out(d.st, Err(d.res.error)) else Out(d.st, Ok(RObject(d.res.value)))
    case ReturnsValue(Arr(xs)) => Out(st, Ok(RList(xs)))
    case ReturnsValue(v) => Out(st, Ok(RValue(v)))
    case Throws => Out(st, Err(FunctionThrew))
  }

  /** A literal, or `await resolve(key, tags)`. */
  function Eval(st: State, meta: Metadata, e: DepExpr, fuel: nat): (r: Out<Value>)
    ensures r.st.factories == st.factories
    decreases fuel, 0, 1
  {
    match e
    case Lit(v) => Out(st, Ok(v))
    case Dep(req) => Resolve(st, meta, req, fuel)
  }

  /** Evaluates `es[i..]` in order, appending to `acc`; stops at the first failure. */
  function EvalList(st: State, meta: Metadata, es: seq<DepExpr>, i: nat, acc: seq<Value>, fuel: nat): (r: Out<seq<Value>>)
    requires i <= |es|
    ensures r.st.factories == st.factories
    ensures r.res.Ok? ==> |r.res.value| == |acc| + |es| - i && r.res.value[..|acc|] == acc
    decreases fuel, 1, |es| - i
  {
    if i == |es| then Out(st, Ok(acc))
    else
      var x := Eval(st, meta, es[i], fuel);
      if x.res.Err? then Out(x.st, Err(x.res.error))
      else
        var r := EvalList(x.st, meta, es, i + 1, acc + [x.res.value], fuel);
        assert r.res.Ok? ==> r.res.value[..|acc|] == (acc + [x.res.value])[..|acc|];
        r
  }

  /** Evaluates an object literal's property values in order. */
  function EvalProps(st: State, meta: Metadata, ps: seq<(string, DepExpr)>, i: nat, acc: Props, fuel: nat): (r: Out<Props>)
    requires i <= |ps|
    ensures r.st.factories == st.factories
    decreases fuel, 1, |ps| - i
  {
    if i == |ps| then Out(st, Ok(acc))
    else
      var x := Eval(st, meta, ps[i].1, fuel);
      if x.res.Err? then Out(x.st, Err(x.res.error))
      else EvalProps(x.st, meta, ps, i + 1, Put(acc, ps[i].0, x.res.value), fuel)
  }

  /** One injection: resolve its key, refuse a position getDependencies already
      filled with a truthy value, store the value at the position's name. */
  function InjectOne(st: State, meta: Metadata, inj: Injection, provided: Props, fuel: nat): (r: Out<Props>)
    ensures r.st.factories == st.factories
    decreases fuel, 1, 0
  {
    var dep := Resolve(st, meta, Request(inj.key, []), fuel);
    if dep.res.Err? then Out(dep.st, Err(dep.res.error))
    else
      var name := DecimalString(inj.index);
      if Truthy(Get(provided, name)) then Out(dep.st, Err(DuplicateInjection))
      else Out(dep.st, Ok(Put(provided, name, dep.res.value)))
  }

  /** Lines 123-129 of the injectable builder: the injections in order, stopping
      at the first failure. */
  function Inject(st: State, meta: Metadata, injs: seq<Injection>, i: nat, provided: Props, fuel: nat): (r: Out<Props>)
    requires i <= |injs|
    ensures r.st.factories == st.factories
    decreases fuel, 1, |injs| - i
  {
    if i == |injs| then Out(st, Ok(provided))
    else
      var x := InjectOne(st, meta, injs[i], provided, fuel);
      if x.res.Err? then x
      else Inject(x.st, meta, injs, i + 1, x.res.value, fuel)
  }

  /** `target[f] = v`: assigning to a primitive fails; arrays and functions are
      objects whose extra fields the model does not track. */
  function Assign(st: State, target: Value, f: string, v: Value): (r: Result<State>)
    ensures r.Ok? ==> r.value.factories == st.factories && r.value.values == st.values
  {
    match target
    case Ref(a) => if a < |st.heap| then Ok(st.(heap := SetField(st.heap, a, f, v))) else Err(NotAnObject)
    case Arr(_) => Ok(st)
    case Fn(_) => Ok(st)
    case _ => Err(NotAnObject)
  }

  /** `target[f] = v` after a resolve: a failed resolve is passed on unchanged. */
  function AssignResolved(x: Out<Value>, target: Value, f: string): (r: Out<()>)
  {
    if x.res.Err? then Out(x.st, Err(x.res.error))
    else match Assign(x.st, target, f, x.res.value)
      case Err(e) => Out(x.st, Err(e))
      case Ok(st') => Out(st', Ok(()))
  }

  /** One field of a decorator function: resolve the request, then assign it. */
  function WireField(st: State, meta: Metadata, target: Value, f: string, req: Request, fuel: nat): (r: Out<()>)
    ensures r.st.factories == st.factories
    decreases fuel, 1, 0
  {
    AssignResolved(Resolve(st, meta, req, fuel), target, f)
  }

  /** A decorator function: resolve each request and assign it to a field of the value. */
  function Wire(st: State, meta: Metadata, target: Value, assigns: seq<(string, Request)>, i: nat, fuel: nat): (r: Out<()>)
    requires i <= |assigns|
    ensures r.st.factories == st.factories
    decreases fuel, 1, |assigns| - i
  {
    if i == |assigns| then Out(st, Ok(()))
    else
      var x := WireField(st, meta, target, assigns[i].0, assigns[i].1, fuel);
      if x.res.Err? then x
      else Wire(x.st, meta, target, assigns, i + 1, fuel)
  }
}
