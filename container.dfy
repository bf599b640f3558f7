/** `class Container`: the factories and values maps updated in place. Each
    method is proved to compute exactly what the functions of `Resolution` say;
    the properties of those functions carry over. */
module ContainerImpl {
  import opened Common
  import opened Strings
  import opened TagsKey
  import opened Registry
  import opened BuildSteps
  import Resolution

  /** `(name, options) => boolean`, as a filtered service locator passes it. */
  type FactoryFilter = (Key, Entry) -> bool

  class Container {
    var factories: Registry
    var values: Resolution.Values
    var heap: seq<Obj>

    /** `filterFactories(filter)` and `getTaggedFactories(tag)` are called by the
        locators but their bodies are not part of this model: they are arbitrary
        functions of the registered factories. */
    const filterFactories: (Registry, FactoryFilter) -> seq<Key>
    const taggedFactories: (Registry, string) -> seq<Key>

    function St(): Resolution.State
      reads this
    {
      Resolution.State(factories, values, heap)
    }

    constructor(filterFactories: (Registry, FactoryFilter) -> seq<Key>, taggedFactories: (Registry, string) -> seq<Key>)
      ensures factories == map[] && values == map[] && heap == []
      ensures this.filterFactories == filterFactories && this.taggedFactories == taggedFactories
    {
      factories := map[];
      values := map[];
      heap := [];
      this.filterFactories := filterFactories;
      this.taggedFactories := taggedFactories;
    }

    /** `factory(type, options)`. */
    method Factory(k: Key, options: FactoryOptions)
      modifies this
      ensures factories == Registered(old(factories), k, options)
      ensures values == old(values) && heap == old(heap)
    {
      Register(k, options);
    }

    /** `value(name, {value, tags})`: an entry whose builder returns `v`. */
    method Value(k: Key, v: Common.Value, tags: Tags)
      modifies this
      ensures factories == Registered(old(factories), k, FactoryOptions(Const(v), None, [], tags))
      ensures values == old(values) && heap == old(heap)
    {
      Register(k, FactoryOptions(Const(v), None, [], tags));
    }

    /** `register(type, options)`: push the entry with its tags key. */
    method Register(k: Key, options: FactoryOptions)
      modifies this
      ensures factories == Registered(old(factories), k, options)
      ensures values == old(values) && heap == old(heap)
    {
      if k !in factories {
        factories := factories[k := []];
      }
      factories := factories[k := factories[k] + [MakeEntry(options)]];
    }

    /** `checkSanity()`: for each key, sort the tags keys and compare neighbours. */
    method CheckSanity() returns (r: Result<()>)
      ensures r.Err? <==> !Sane(factories)
      ensures r.Err? ==> r.error == DuplicateRegistration
    {
      var remaining := factories.Keys;
      while remaining != {}
        invariant remaining <= factories.Keys
        invariant forall k :: k in factories && k !in remaining ==> !HasDuplicate(TagsKeys(factories[k]))
        decreases remaining
      {
        var k :| k in remaining;
        var tagsKeys := SortStrings(TagsKeys(factories[k]));
        var i := 0;
        while i < |tagsKeys| - 1
          invariant 0 <= i <= if |tagsKeys| == 0 then 0 else |tagsKeys| - 1
          invariant forall j :: 0 <= j < i ==> tagsKeys[j] != tagsKeys[j + 1]
        {
          if tagsKeys[i] == tagsKeys[i + 1] {
            SanityStep(factories[k]);
            assert HasAdjacentEqual(tagsKeys);
            return Err(DuplicateRegistration);
          }
          i := i + 1;
        }
        SanityStep(factories[k]);
        remaining := remaining - {k};
      }
      return Ok(());
    }

    /** `resolve(type, tags)`. */
    method Resolve(req: Request, meta: Metadata, fuel: nat) returns (r: Result<Common.Value>)
      modifies this
      ensures Resolution.Out(St(), r) == Resolution.Resolve(old(St()), meta, req, fuel)
      decreases fuel, 0, 0
    {
      var found := ResolveFactory(factories, req);
      if found.Err? {
        return Err(found.error);
      }
      var entry := found.value;
      var cached := Resolution.Cached(values, req.key, entry.tagsKey);
      if Truthy(cached) {
        return Ok(cached);
      }
      if fuel == 0 {
        return Err(StackOverflow);
      }
      var built := BuildValue(req.key, entry, meta, fuel - 1);
      if built.Err? {
        return Err(built.error);
      }
      return Ok(Resolution.Cached(values, req.key, entry.tagsKey));
    }

    /** `buildValue(valueName, type, factoryOptions)`. */
    method BuildValue(k: Key, entry: Entry, meta: Metadata, fuel: nat) returns (r: Result<()>)
      modifies this
      ensures Resolution.Out(St(), r) == Resolution.BuildValue(old(St()), meta, k, entry, fuel)
      decreases fuel, 4, 0
    {
      if k !in values {
        values := values[k := map[]];
      }
      var v := RunBuilder(entry.builder, meta, fuel);
      if v.Err? {
        return Err(v.error);
      }
      values := Resolution.Store(values, k, entry.tagsKey, v.value);
      match entry.wirer {
        case None =>
          return Ok(());
        case Some(w) =>
          r := Wire(Resolution.Cached(values, k, entry.tagsKey), w.assignments, meta, fuel);
      }
    }

    /** `new Klass(...args)`. */
    method NewObject(klass: nat, args: seq<Common.Value>) returns (v: Common.Value)
      modifies this
      ensures heap == old(heap) + [Obj(klass, args, map[])] && v == Ref(|old(heap)|)
      ensures factories == old(factories) && values == old(values)
    {
      v := Ref(|heap|);
      heap := heap + [Obj(klass, args, map[])];
    }

    /** The factory function of an entry, called with `resolve`. */
    method RunBuilder(b: Builder, meta: Metadata, fuel: nat) returns (r: Result<Common.Value>)
      modifies this
      ensures Resolution.Out(St(), r) == Resolution.RunBuilder(old(St()), meta, b, fuel)
      decreases fuel, 3, 0
    {
      match b {
        case Const(v) =>
          return Ok(v);
        case ServiceNew(klass, deps) =>
          var d := EvalList(Resolution.KeyRequests(deps), meta, fuel);
          if d.Err? {
            return Err(d.error);
          }
          var v := NewObject(klass, d.value);
          return Ok(v);
        case ProviderNew(klass, g) =>
          var d := CallDeps(g, meta, fuel);
          if d.Err? {
            return Err(d.error);
          }
          if !d.value.RList? {
            return Err(NotAnArray);
          }
          var v := NewObject(klass, d.value.items);
          return Ok(v);
        case GetterNew(klass, g) =>
          var d := CallDeps(g, meta, fuel);
          if d.Err? {
            return Err(d.error);
          }
          var args: seq<Common.Value>;
          match d.value {
            case RList(xs) =>
              args := xs;
            case RValue(Str(s)) =>
              args := Resolution.Chars(s);
            case _ =>
              return Err(NotIterable);
          }
          var v := NewObject(klass, args);
          return Ok(v);
        case InjectableNew(klass, mk) =>
          var ordered := SortByIndex(Resolution.Injections(meta, mk, klass));
          var d := EvalList(Resolution.InjectionRequests(ordered), meta, fuel);
          if d.Err? {
            return Err(d.error);
          }
          var v := NewObject(klass, d.value);
          return Ok(v);
        case PositionalNew(klass, mk, g) =>
          var injs := Resolution.Injections(meta, mk, klass);
          var d := CallDeps(g, meta, fuel);
          if d.Err? {
            return Err(d.error);
          }
          if d.value.RValue? && Resolution.Primitive(d.value.v) {
            var x := InjectIntoPrimitive(injs, d.value.v, meta, fuel);
            return Err(x.error);
          }
          var provided := Resolution.ProvidedProps(d.value);
          if provided.Err? {
            return Err(provided.error);
          }
          var filled := Inject(injs, provided.value, meta, fuel);
          if filled.Err? {
            return Err(filled.error);
          }
          var args := PlaceDependencies(filled.value);
          if args.Err? {
            return Err(args.error);
          }
          var v := NewObject(klass, args.value);
          return Ok(v);
      }
    }

    /** Calls a getDependencies function with `resolve`. */
    method CallDeps(g: DepsFn, meta: Metadata, fuel: nat) returns (r: Result<Resolution.Returned>)
      modifies this
      ensures Resolution.Out(St(), r) == Resolution.CallDeps(old(St()), meta, g, fuel)
      decreases fuel, 2, 0
    {
      match g {
        case ReturnsList(items) =>
          var d := EvalList(items, meta, fuel);
          if d.Err? {
            return Err(d.error);
          }
          return Ok(Resolution.RList(d.value));
        case ReturnsObject(props) =>
          var d := EvalProps(props, meta, fuel);
          if d.Err? {
            return Err(d.error);
          }
          return Ok(Resolution.RObject(d.value));
        case ReturnsValue(v) =>
          if v.Arr? {
            return Ok(Resolution.RList(v.items));
          }
          return Ok(Resolution.RValue(v));
        case Throws =>
          return Err(FunctionThrew);
      }
    }

    /** A literal, or `await resolve(key, tags)`. */
    method Eval(e: DepExpr, meta: Metadata, fuel: nat) returns (r: Result<Common.Value>)
      modifies this
      ensures Resolution.Out(St(), r) == Resolution.Eval(old(St()), meta, e, fuel)
      decreases fuel, 0, 1
    {
      match e {
        case Lit(v) =>
          return Ok(v);
        case Dep(req) =>
          r := Resolve(req, meta, fuel);
      }
    }

    /** Evaluates a list of expressions in order, stopping at the first failure. */
    method EvalList(es: seq<DepExpr>, meta: Metadata, fuel: nat) returns (r: Result<seq<Common.Value>>)
      modifies this
      ensures Resolution.Out(St(), r) == Resolution.EvalList(old(St()), meta, es, 0, [], fuel)
      decreases fuel, 1, 0
    {
      var acc := [];
      var i := 0;
      while i < |es|
        invariant 0 <= i <= |es|
        invariant Resolution.EvalList(old(St()), meta, es, 0, [], fuel) == Resolution.EvalList(St(), meta, es, i, acc, fuel)
      {
        var x := Eval(es[i], meta, fuel);
        if x.Err? {
          return Err(x.error);
        }
        acc := acc + [x.value];
        i := i + 1;
      }
      return Ok(acc);
    }

    /** Evaluates an object literal's property values in order. */
    method EvalProps(ps: seq<(string, DepExpr)>, meta: Metadata, fuel: nat) returns (r: Result<Props>)
      modifies this
      ensures Resolution.Out(St(), r) == Resolution.EvalProps(old(St()), meta, ps, 0, [], fuel)
      decreases fuel, 1, 0
    {
      var acc := [];
      var i := 0;
      while i < |ps|
        invariant 0 <= i <= |ps|
        invariant Resolution.EvalProps(old(St()), meta, ps, 0, [], fuel) == Resolution.EvalProps(St(), meta, ps, i, acc, fuel)
      {
        ghost var before := St();
        var x := Eval(ps[i].1, meta, fuel);
        assert Resolution.Out(St(), x) == Resolution.Eval(before, meta, ps[i].1, fuel);
        if x.Err? {
          assert Resolution.EvalProps(before, meta, ps, i, acc, fuel) == Resolution.Out(St(), Err(x.error));
          return Err(x.error);
        }
        assert Resolution.EvalProps(before, meta, ps, i, acc, fuel)
          == Resolution.EvalProps(St(), meta, ps, i + 1, Put(acc, ps[i].0, x.value), fuel);
        acc := Put(acc, ps[i].0, x.value);
        i := i + 1;
      }
      return Ok(acc);
    }

    /** One injection of the injectable builder. */
    method InjectOne(inj: Injection, provided: Props, meta: Metadata, fuel: nat) returns (r: Result<Props>)
      modifies this
      ensures Resolution.Out(St(), r) == Resolution.InjectOne(old(St()), meta, inj, provided, fuel)
      decreases fuel, 1, 0
    {
      var dep := Resolve(Request(inj.key, []), meta, fuel);
      if dep.Err? {
        return Err(dep.error);
      }
      var name := DecimalString(inj.index);
      if Truthy(Get(provided, name)) {
        return Err(DuplicateInjection);
      }
      return Ok(Put(provided, name, dep.value));
    }

    /** Lines 123-129 of the injectable builder of the decorators builder. */
    method Inject(injs: seq<Injection>, provided: Props, meta: Metadata, fuel: nat) returns (r: Result<Props>)
      modifies this
      ensures Resolution.Out(St(), r) == Resolution.Inject(old(St()), meta, injs, 0, provided, fuel)
      decreases fuel, 1, 1
    {
      var deps := provided;
      var i := 0;
      while i < |injs|
        invariant 0 <= i <= |injs|
        invariant Resolution.Inject(old(St()), meta, injs, 0, provided, fuel) == Resolution.Inject(St(), meta, injs, i, deps, fuel)
      {
        ghost var before := St();
        var x := InjectOne(injs[i], deps, meta, fuel);
        if x.Err? {
          return Err(x.error);
        }
        assert Resolution.Inject(before, meta, injs, i, deps, fuel) == Resolution.Inject(St(), meta, injs, i + 1, x.value, fuel);
        deps := x.value;
        i := i + 1;
      }
      return Ok(deps);
    }

    /** The injections of the injectable builder into a primitive getDependencies result. */
    method InjectIntoPrimitive(injs: seq<Injection>, v: Common.Value, meta: Metadata, fuel: nat) returns (r: Result<()>)
      modifies this
      ensures Resolution.Out(St(), r) == Resolution.InjectIntoPrimitive(old(St()), meta, injs, v, fuel)
      ensures r.Err?
      decreases fuel, 1, 0
    {
      if |injs| == 0 {
        return Err(NotAnObject);
      }
      var dep := Resolve(Request(injs[0].key, []), meta, fuel);
      if dep.Err? {
        return Err(dep.error);
      }
      if v.Str? && injs[0].index < |v.s| {
        return Err(DuplicateInjection);
      }
      return Err(NotAnObject);
    }

    /** `target[f] = v` on the heap. */
    method AssignField(target: Common.Value, f: string, v: Common.Value) returns (r: Result<()>)
      modifies this
      ensures var a := Resolution.Assign(old(St()), target, f, v);
        && r == (if a.Ok? then Ok(()) else Err(a.error))
        && St() == (if a.Ok? then a.value else old(St()))
    {
      match target {
        case Ref(a) =>
          if a >= |heap| {
            return Err(NotAnObject);
          }
          heap := Resolution.SetField(heap, a, f, v);
        case Arr(_) =>
        case Fn(_) =>
        case _ =>
          return Err(NotAnObject);
      }
      return Ok(());
    }

    /** Resolves one request of a decorator function and assigns it to a field of `target`. */
    method WireField(target: Common.Value, f: string, req: Request, meta: Metadata, fuel: nat) returns (r: Result<()>)
      modifies this
      ensures Resolution.Out(St(), r) == Resolution.WireField(old(St()), meta, target, f, req, fuel)
      decreases fuel, 1, 0
    {
      var x := Resolve(req, meta, fuel);
      if x.Err? {
        return Err(x.error);
      }
      r := AssignField(target, f, x.value);
    }

    /** A decorator function assigning resolved values to fields of `target`. */
    method Wire(target: Common.Value, assigns: seq<(string, Request)>, meta: Metadata, fuel: nat) returns (r: Result<()>)
      modifies this
      ensures Resolution.Out(St(), r) == Resolution.Wire(old(St()), meta, target, assigns, 0, fuel)
      decreases fuel, 1, 1
    {
      var i := 0;
      while i < |assigns|
        invariant 0 <= i <= |assigns|
        invariant Resolution.Wire(old(St()), meta, target, assigns, 0, fuel) == Resolution.Wire(St(), meta, target, assigns, i, fuel)
      {
        ghost var before := St();
        var x := WireField(target, assigns[i].0, assigns[i].1, meta, fuel);
        assert Resolution.Out(St(), x) == Resolution.WireField(before, meta, target, assigns[i].0, assigns[i].1, fuel);
        if x.Err? {
          return Err(x.error);
        }
        assert Resolution.Wire(before, meta, target, assigns, i, fuel) == Resolution.Wire(St(), meta, target, assigns, i + 1, fuel);
        i := i + 1;
      }
      return Ok(());
    }
  }

  /** One key of `checkSanity`: neighbours after sorting find a shared tags key. */
  lemma SanityStep(es: seq<Entry>)
    ensures HasAdjacentEqual(SortStrings(TagsKeys(es))) <==> HasDuplicate(TagsKeys(es))
  {
    SanityByAdjacentKeys(es);
    var keys := TagsKeys(es);
    if HasDuplicate(keys) {
      var i, j :| 0 <= i < j < |keys| && keys[i] == keys[j];
      assert es[i].tagsKey == es[j].tagsKey;
    }
  }

  /** Lines 131-134 of the injectable builder: `dependencies[toInteger(k)] =
      providedDeps[k]` for each own key, into an array that starts empty. */
  method PlaceDependencies(provided: Props) returns (r: Result<seq<Value>>)
    ensures r == Place(provided)
  {
    var dependencies := [];
    var i := 0;
    while i < |provided|
      invariant 0 <= i <= |provided|
      invariant Place(provided) == PlaceFrom(provided, i, dependencies)
    {
      var index := ToInteger(provided[i].0);
      if index.Err? {
        return Err(index.error);
      }
      dependencies := SetElement(dependencies, index.value, provided[i].1);
      i := i + 1;
    }
    return Ok(dependencies);
  }
}
