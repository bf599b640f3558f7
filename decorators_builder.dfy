/** `ContainerDecoratorsBuilder`: `buildDecorators(container)` and its `service`,
    `injectable` and `inject` decorators. Unlike the factory layer these take a
    tags object, add no auto-tags, and let a getDependencies function supply
    constructor arguments (a list for `service`, a position map for `injectable`). */
module BuilderLayer {
  import opened Common
  import opened TagsKey
  import opened Registry
  import opened BuildSteps
  import opened DecoratorArgs
  import Resolution
  import ContainerImpl

  /** The options of `service`. */
  datatype ServiceOptions = ServiceOptions(tags: Option<Tags>, dependsOn: seq<Key>, wirer: Option<Wirer>, getDependencies: Option<DepsFn>)

  /** The options of `injectable`. */
  datatype InjectableOptions = InjectableOptions(tags: Option<Tags>, wirer: Option<Wirer>, getDependencies: Option<DepsFn>)

  const NoServiceOptions := ServiceOptions(None, [], None, None)
  const NoInjectableOptions := InjectableOptions(None, None, None)

  /** `dependenciesGetter` of `service`: the given getDependencies replaces
      `dependsOn` entirely; without one, each `dependsOn` key is resolved. */
  function ServiceGetter(o: ServiceOptions): (g: DepsFn)
    ensures o.getDependencies.Some? ==> g == o.getDependencies.value
    ensures o.getDependencies.None? ==> g == ReturnsList(Resolution.KeyRequests(o.dependsOn))
  {
    if o.getDependencies.Some? then o.getDependencies.value
    else ReturnsList(Resolution.KeyRequests(o.dependsOn))
  }

  /** `dependenciesGetter` of `injectable`: without getDependencies, `() => ({})`. */
  function InjectableGetter(o: InjectableOptions): (g: DepsFn)
    ensures o.getDependencies.Some? ==> g == o.getDependencies.value
    ensures o.getDependencies.None? ==> g == ReturnsObject([])
  {
    if o.getDependencies.Some? then o.getDependencies.value else ReturnsObject([])
  }

  /** Without getDependencies, the service builder resolves `dependsOn` in order
      and passes the values as positional arguments, as the factory layer's does. */
  lemma DefaultGetterIsDependsOn(st: Resolution.State, meta: Metadata, klass: nat, o: ServiceOptions, fuel: nat)
    requires o.getDependencies.None?
    ensures Resolution.RunBuilder(st, meta, GetterNew(klass, ServiceGetter(o)), fuel)
         == Resolution.RunBuilder(st, meta, ServiceNew(klass, o.dependsOn), fuel)
  {
    var es := Resolution.KeyRequests(o.dependsOn);
    var d := Resolution.EvalList(st, meta, es, 0, [], fuel);
    assert Resolution.CallDeps(st, meta, ReturnsList(es), fuel)
        == if d.res.Err? then Resolution.Out(d.st, Err(d.res.error)) else Resolution.Out(d.st, Ok(Resolution.RList(d.res.value)));
  }

  /** Without getDependencies and without injections, `injectable` constructs the
      class with no arguments and without resolving anything. */
  lemma InjectableDefaultStartsEmpty(st: Resolution.State, meta: Metadata, klass: nat, mk: MetaKey, fuel: nat)
    requires Resolution.Injections(meta, mk, klass) == []
    ensures Resolution.CallDeps(st, meta, InjectableGetter(NoInjectableOptions), fuel) == Resolution.Out(st, Ok(Resolution.RObject([])))
    ensures Resolution.RunBuilder(st, meta, PositionalNew(klass, mk, InjectableGetter(NoInjectableOptions)), fuel)
         == Resolution.Construct(st, klass, [])
  {
    assert Resolution.EvalProps(st, meta, [], 0, [], fuel) == Resolution.Out(st, Ok([]));
    assert Resolution.CallDeps(st, meta, ReturnsObject([]), fuel) == Resolution.Out(st, Ok(Resolution.RObject([])));
    assert Resolution.Inject(st, meta, [], 0, [], fuel) == Resolution.Out(st, Ok([]));
    assert Place([]) == Ok([]);
  }

  /** The tags as the source passes them: the default `tags = []` is an array. */
  function TagsAsWritten(t: Option<Tags>): (r: Tags)
    ensures t.Some? ==> r == t.value
    ensures t.None? ==> r == ArrayAsTags([])
  {
    if t.Some? then t.value else ArrayAsTags([])
  }

  /** The tags with the default the container itself uses, `{}`. */
  function TagsOrEmpty(t: Option<Tags>): (r: Tags)
    ensures t.Some? ==> r == t.value
    ensures t.None? ==> r == []
  {
    if t.Some? then t.value else []
  }

  /** As written, a class decorated without tags is registered under the tags
      key `_length_0` and so is not found by an untagged `resolve`. */
  lemma DefaultTagsAsWritten(k: Key, b: Builder, w: Option<Wirer>)
    ensures BuildTagsKey(TagsAsWritten(None)) == "_length_0"
    ensures ResolveFactory(Registered(map[], k, FactoryOptions(b, w, [], TagsAsWritten(None))), Request(k, []))
         == Err(NoMatchingFactory)
  {
    ArrayTagsNeverUntagged([]);
    RegisteredResolveFactory(map[], k, FactoryOptions(b, w, [], TagsAsWritten(None)), Request(k, []));
  }

  /** With the `{}` default, a class decorated without tags is what an untagged
      `resolve` of its key finds, unless the key already had an untagged entry. */
  lemma DefaultTagsResolvable(r: Registry, k: Key, b: Builder, w: Option<Wirer>)
    requires forall i :: 0 <= i < |EntriesOf(r, k)| ==> EntriesOf(r, k)[i].tagsKey != ""
    ensures ResolveFactory(Registered(r, k, FactoryOptions(b, w, [], TagsOrEmpty(None))), Request(k, []))
         == Ok(MakeEntry(FactoryOptions(b, w, [], TagsOrEmpty(None))))
  {
    ResolveFactoryCorrect(r, Request(k, []));
    RegisteredResolveFactory(r, k, FactoryOptions(b, w, [], TagsOrEmpty(None)), Request(k, []));
  }

  /** `buildDecorators(container)`: decorators under a fresh `Symbol('Container')`. */
  method BuildDecorators(container: ContainerImpl.Container, store: MetadataStore, symbols: Symbols) returns (d: ContainerDecorators)
    modifies symbols
    ensures fresh(d) && d.container == container && d.store == store
    ensures d.metaKey == MSymbol(old(symbols.next)) && symbols.next == old(symbols.next) + 1
  {
    var sym := symbols.Fresh();
    d := new ContainerDecorators(container, store, MSymbol(sym));
  }

  /** The decorators one `buildDecorators` call returns. */
  class ContainerDecorators {
    const container: ContainerImpl.Container
    const store: MetadataStore
    const metaKey: MetaKey

    constructor(container: ContainerImpl.Container, store: MetadataStore, metaKey: MetaKey)
      ensures this.container == container && this.store == store && this.metaKey == metaKey
    {
      this.container := container;
      this.store := store;
      this.metaKey := metaKey;
    }

    /** `service(name, options)(Klass)`: `new Klass(...(await dependenciesGetter(resolve)))`,
        registered with exactly the option tags. */
    method Service(first: Arg<ServiceOptions>, second: Option<ServiceOptions>, klass: nat)
      modifies container
      ensures var o := EffectiveOptions(first, second, NoServiceOptions);
        container.factories == Registered(old(container.factories), RegisteredKey(first, klass),
          FactoryOptions(GetterNew(klass, ServiceGetter(o)), o.wirer, [], TagsOrEmpty(o.tags)))
      ensures container.values == old(container.values) && container.heap == old(container.heap)
    {
      var o := EffectiveOptions(first, second, NoServiceOptions);
      container.Factory(RegisteredKey(first, klass), FactoryOptions(GetterNew(klass, ServiceGetter(o)), o.wirer, [], TagsOrEmpty(o.tags)));
    }

    /** `injectable(name, options)(Klass)`: getDependencies' position map, then the
        injections recorded under this set's symbol, placed by position. */
    method Injectable(first: Arg<InjectableOptions>, second: Option<InjectableOptions>, klass: nat)
      modifies container
      ensures var o := EffectiveOptions(first, second, NoInjectableOptions);
        container.factories == Registered(old(container.factories), RegisteredKey(first, klass),
          FactoryOptions(PositionalNew(klass, metaKey, InjectableGetter(o)), o.wirer, [], TagsOrEmpty(o.tags)))
      ensures container.values == old(container.values) && container.heap == old(container.heap)
    {
      var o := EffectiveOptions(first, second, NoInjectableOptions);
      container.Factory(RegisteredKey(first, klass), FactoryOptions(PositionalNew(klass, metaKey, InjectableGetter(o)), o.wirer, [], TagsOrEmpty(o.tags)));
    }

    /** `inject(type)(target, propertyKey, parameterIndex)`, under this set's symbol. */
    method Inject(k: Key, target: nat, property: Option<string>, index: nat)
      modifies store
      ensures store.table == WithInjection(old(store.table), Slot(metaKey, target, property), Injection(index, k))
    {
      store.Push(Slot(metaKey, target, property), Injection(index, k));
    }
  }

  /** The positions the injectable builder warns about: those of the argument
      list left `undefined`, in ascending order. */
  method MissingPositions(args: seq<Value>) returns (ps: seq<nat>)
    ensures forall p: nat :: p in ps <==> p < |args| && args[p] == Undefined
    ensures forall i, j :: 0 <= i < j < |ps| ==> ps[i] < ps[j]
  {
    ps := [];
    for i := 0 to |args|
      invariant forall p: nat :: p in ps <==> p < i && args[p] == Undefined
      invariant forall a, b :: 0 <= a < b < |ps| ==> ps[a] < ps[b]
      invariant forall a :: 0 <= a < |ps| ==> ps[a] < i
    {
      if args[i] == Undefined {
        ps := ps + [i];
      }
    }
  }
}
