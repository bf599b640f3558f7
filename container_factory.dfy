/** `ContainerFactory`: auto-tagging, and the `service`, `provider`,
    `injectable` and `inject` decorators that `build()` returns, each reducing
    to `container.factory(...)` or to a push onto the reflection metadata. */
module FactoryLayer {
  import opened Common
  import opened TagsKey
  import opened Registry
  import opened DecoratorArgs
  import ContainerImpl

  /** `autoTagging.addTags(Klass, type)`; `None` when it returns `undefined`. */
  type AutoTagger = (nat, Key) -> Option<seq<string>>

  /** Every tagger returns a list (spreading `undefined` throws). */
  predicate AllIterable(taggers: seq<AutoTagger>, klass: nat, k: Key) {
    forall i :: 0 <= i < |taggers| ==> taggers[i](klass, k).Some?
  }

  /** The taggers' lists, concatenated in registration order. */
  function Concat(taggers: seq<AutoTagger>, klass: nat, k: Key): seq<string>
    requires AllIterable(taggers, klass, k)
  {
    if |taggers| == 0 then []
    else
      var init := taggers[..|taggers| - 1];
      assert AllIterable(init, klass, k) by {
        forall i | 0 <= i < |init| ensures init[i](klass, k).Some? {
          assert init[i] == taggers[i];
        }
      }
      Concat(init, klass, k) + taggers[|taggers| - 1](klass, k).value
  }

  /** `getAutoTags(Klass, type)`. */
  function AutoTags(taggers: seq<AutoTagger>, klass: nat, k: Key): Result<seq<string>> {
    if AllIterable(taggers, klass, k) then Ok(Concat(taggers, klass, k)) else Err(NotIterable)
  }

  /** Adding a tagger appends its list to the auto-tags; a tagger returning
      `undefined` makes them fail. No taggers give no tags. */
  lemma AutoTagsAppend(taggers: seq<AutoTagger>, t: AutoTagger, klass: nat, k: Key)
    ensures AutoTags([], klass, k) == Ok([])
    ensures AutoTags(taggers + [t], klass, k) ==
      (if AutoTags(taggers, klass, k).Ok? && t(klass, k).Some?
       then Ok(AutoTags(taggers, klass, k).value + t(klass, k).value)
       else Err(NotIterable))
  {
    var s := taggers + [t];
    assert s[..|s| - 1] == taggers;
    assert s[|s| - 1] == t;
    if !AllIterable(taggers, klass, k) {
      var i :| 0 <= i < |taggers| && taggers[i](klass, k).None?;
      assert s[i] == taggers[i];
    } else if t(klass, k).Some? {
      forall i | 0 <= i < |s| ensures s[i](klass, k).Some? {
        if i < |taggers| { assert s[i] == taggers[i]; }
      }
    }
  }

  /** The options of `service`; `tags` is the list the caller writes. */
  datatype ServiceOptions = ServiceOptions(tags: seq<string>, dependsOn: seq<Key>, wirer: Option<Wirer>)

  /** The options of `provider` and of `injectable`. */
  datatype ProviderOptions = ProviderOptions(tags: seq<string>, wirer: Option<Wirer>)

  const NoServiceOptions := ServiceOptions([], [], None)
  const NoProviderOptions := ProviderOptions([], None)

  /** The options handed to `container.factory`: the tag list, option tags first
      and auto-tags after them, registered as labels; the tags object is empty. */
  function Labelled(b: Builder, w: Option<Wirer>, tags: seq<string>, autoTags: seq<string>): (o: FactoryOptions)
    ensures o.builder == b && o.wirer == w
    ensures o.labels == tags + autoTags && o.tags == []
  {
    FactoryOptions(b, w, tags + autoTags, [])
  }

  /** The options as the source writes them: the tag list sits where the
      container expects a tags object. */
  function AsWritten(b: Builder, w: Option<Wirer>, tags: seq<string>, autoTags: seq<string>): (o: FactoryOptions)
    ensures o.builder == b && o.wirer == w
    ensures o.labels == [] && o.tags == ArrayAsTags(tags + autoTags)
  {
    FactoryOptions(b, w, [], ArrayAsTags(tags + autoTags))
  }

  /** As written, a decorated class never becomes visible to an untagged
      `resolve`, whatever its tag list: the registration leaves every untagged
      lookup as it was, so on an empty container it finds nothing. */
  lemma AsWrittenUntaggedUnaffected(r: Registry, k: Key, b: Builder, w: Option<Wirer>, tags: seq<string>, autoTags: seq<string>)
    ensures ResolveFactory(Registered(r, k, AsWritten(b, w, tags, autoTags)), Request(k, [])) == ResolveFactory(r, Request(k, []))
    ensures ResolveFactory(Registered(map[], k, AsWritten(b, w, tags, autoTags)), Request(k, [])) == Err(NoMatchingFactory)
  {
    ArrayTagsNeverUntagged(tags + autoTags);
    RegisteredResolveFactory(r, k, AsWritten(b, w, tags, autoTags), Request(k, []));
    RegisteredResolveFactory(map[], k, AsWritten(b, w, tags, autoTags), Request(k, []));
  }

  /** With the tag list as labels, the decorated class is what an untagged
      `resolve` of its key finds, unless the key already had an untagged entry. */
  lemma LabelledResolvableUntagged(r: Registry, k: Key, b: Builder, w: Option<Wirer>, tags: seq<string>, autoTags: seq<string>)
    requires forall i :: 0 <= i < |EntriesOf(r, k)| ==> EntriesOf(r, k)[i].tagsKey != ""
    ensures ResolveFactory(Registered(r, k, Labelled(b, w, tags, autoTags)), Request(k, []))
         == Ok(MakeEntry(Labelled(b, w, tags, autoTags)))
  {
    ResolveFactoryCorrect(r, Request(k, []));
    RegisteredResolveFactory(r, k, Labelled(b, w, tags, autoTags), Request(k, []));
  }

  /** What `provider(type, getDependencies, options)` settles on before it sees
      the class: the explicit name, the getDependencies function and the options. */
  datatype ProviderPlan = ProviderPlan(name: Option<Key>, getDeps: DepsFn, options: ProviderOptions)

  /** The argument juggling of `provider`. A function first argument is
      getDependencies and the second argument its options; a string, number or
      symbol first argument is the name and needs a function second argument;
      anything else throws. `call(f)` is what the function with handle `f` does
      when it is called with `resolve`. */
  function PlanProvider(first: Arg<ProviderOptions>, second: Arg<ProviderOptions>, third: Option<ProviderOptions>,
                        call: nat -> DepsFn): (r: Result<ProviderPlan>)
    ensures r.Err? <==> !first.Name? || (!first.k.KFunction? && !(second.Name? && second.k.KFunction?))
    ensures r.Err? ==> r.error == MissingGetDependencies
    ensures first.Name? && first.k.KFunction? ==>
      r == Ok(ProviderPlan(None, call(first.k.fn), if second.Options? then second.o else NoProviderOptions))
    ensures first.Name? && !first.k.KFunction? && second.Name? && second.k.KFunction? ==>
      r == Ok(ProviderPlan(Some(first.k), call(second.k.fn), if third.Some? then third.value else NoProviderOptions))
  {
    if TypeOf(first) !in ["string", "number", "symbol"] then
      if TypeOf(first) == "function" then
        Ok(ProviderPlan(None, call(first.k.fn), if second.Options? then second.o else NoProviderOptions))
      else Err(MissingGetDependencies)
    else if TypeOf(second) != "function" then Err(MissingGetDependencies)
    else Ok(ProviderPlan(Some(first.k), call(second.k.fn), if third.Some? then third.value else NoProviderOptions))
  }

  /** The metadata key of `build()`'s inject and injectable decorators;
      `nonce` is the string of the `Math.random()` it draws. */
  function InjectionsKey(nonce: string): MetaKey {
    MString("injections_c_" + nonce)
  }

  /** Two builds that draw different numbers use different metadata keys. */
  lemma InjectionsKeysDistinct(n1: string, n2: string)
    requires n1 != n2
    ensures InjectionsKey(n1) != InjectionsKey(n2)
  {
    var p := "injections_c_";
    assert (p + n1)[|p|..] == n1 && (p + n2)[|p|..] == n2;
  }

  class ContainerFactory {
    var autoTaggers: seq<AutoTagger>

    constructor()
      ensures autoTaggers == []
    {
      autoTaggers := [];
    }

    /** `addAutoTagging(autoTagging)`. */
    method AddAutoTagging(t: AutoTagger)
      modifies this
      ensures autoTaggers == old(autoTaggers) + [t]
    {
      autoTaggers := autoTaggers + [t];
    }

    /** `getAutoTags(Klass, type)`: the loop that concatenates each tagger's list. */
    method GetAutoTags(klass: nat, k: Key) returns (r: Result<seq<string>>)
      ensures r == AutoTags(autoTaggers, klass, k)
    {
      var tags: seq<string> := [];
      for i := 0 to |autoTaggers|
        invariant AllIterable(autoTaggers[..i], klass, k)
        invariant tags == Concat(autoTaggers[..i], klass, k)
      {
        var autoTags := autoTaggers[i](klass, k);
        if autoTags.None? {
          return Err(NotIterable);
        }
        assert autoTaggers[..i + 1][..i] == autoTaggers[..i];
        tags := tags + autoTags.value;
      }
      assert autoTaggers[..|autoTaggers|] == autoTaggers;
      return Ok(tags);
    }

    /** `build()`: a new container and the decorators bound to it and to this factory. */
    method Build(nonce: string, store: MetadataStore,
                 filterFactories: (Registry, ContainerImpl.FactoryFilter) -> seq<Key>,
                 taggedFactories: (Registry, string) -> seq<Key>) returns (s: ServiceContainer)
      ensures fresh(s) && fresh(s.container)
      ensures s.factory == this && s.store == store && s.metaKey == InjectionsKey(nonce)
      ensures s.container.factories == map[] && s.container.values == map[] && s.container.heap == []
    {
      var c := new ContainerImpl.Container(filterFactories, taggedFactories);
      s := new ServiceContainer(this, c, store, InjectionsKey(nonce));
    }
  }

  /** The object `build()` returns: the container and its four decorators. */
  class ServiceContainer {
    const factory: ContainerFactory
    const container: ContainerImpl.Container
    const store: MetadataStore
    const metaKey: MetaKey

    constructor(factory: ContainerFactory, container: ContainerImpl.Container, store: MetadataStore, metaKey: MetaKey)
      ensures this.factory == factory && this.container == container
      ensures this.store == store && this.metaKey == metaKey
    {
      this.factory := factory;
      this.container := container;
      this.store := store;
      this.metaKey := metaKey;
    }

    /** `service(type, options)(Klass)`: resolve `dependsOn` in order and construct. */
    method Service(first: Arg<ServiceOptions>, second: Option<ServiceOptions>, klass: nat) returns (r: Result<()>)
      modifies container
      ensures var o := EffectiveOptions(first, second, NoServiceOptions);
        var k := RegisteredKey(first, klass);
        var at := AutoTags(factory.autoTaggers, klass, k);
        && r == (if at.Ok? then Ok(()) else Err(at.error))
        && container.factories == (if at.Ok? then Registered(old(container.factories), k,
             Labelled(ServiceNew(klass, o.dependsOn), o.wirer, o.tags, at.value)) else old(container.factories))
      ensures container.values == old(container.values) && container.heap == old(container.heap)
    {
      var o := EffectiveOptions(first, second, NoServiceOptions);
      var k := RegisteredKey(first, klass);
      var at := factory.GetAutoTags(klass, k);
      if at.Err? {
        return Err(at.error);
      }
      container.Factory(k, Labelled(ServiceNew(klass, o.dependsOn), o.wirer, o.tags, at.value));
      return Ok(());
    }

    /** `provider(type, getDependencies, options)(Klass)`: fails before the class
        is seen when there is no getDependencies function. */
    method Provider(first: Arg<ProviderOptions>, second: Arg<ProviderOptions>, third: Option<ProviderOptions>,
                    call: nat -> DepsFn, klass: nat) returns (r: Result<()>)
      modifies container
      ensures var plan := PlanProvider(first, second, third, call);
        plan.Err? ==> r == Err(plan.error) && container.factories == old(container.factories)
      ensures var plan := PlanProvider(first, second, third, call);
        plan.Ok? ==>
          var k := if plan.value.name.Some? then plan.value.name.value else KFunction(klass);
          var at := AutoTags(factory.autoTaggers, klass, k);
          && r == (if at.Ok? then Ok(()) else Err(at.error))
          && container.factories == (if at.Ok? then Registered(old(container.factories), k,
               Labelled(ProviderNew(klass, plan.value.getDeps), plan.value.options.wirer, plan.value.options.tags, at.value))
               else old(container.factories))
      ensures container.values == old(container.values) && container.heap == old(container.heap)
    {
      var plan := PlanProvider(first, second, third, call);
      if plan.Err? {
        return Err(plan.error);
      }
      var p := plan.value;
      var k := if p.name.Some? then p.name.value else KFunction(klass);
      var at := factory.GetAutoTags(klass, k);
      if at.Err? {
        return Err(at.error);
      }
      container.Factory(k, Labelled(ProviderNew(klass, p.getDeps), p.options.wirer, p.options.tags, at.value));
      return Ok(());
    }

    /** `injectable(type, options)(Klass)`: the injections recorded for the class,
        under this set's metadata key, sorted by index, resolved in order. */
    method Injectable(first: Arg<ProviderOptions>, second: Option<ProviderOptions>, klass: nat) returns (r: Result<()>)
      modifies container
      ensures var o := EffectiveOptions(first, second, NoProviderOptions);
        var k := RegisteredKey(first, klass);
        var at := AutoTags(factory.autoTaggers, klass, k);
        && r == (if at.Ok? then Ok(()) else Err(at.error))
        && container.factories == (if at.Ok? then Registered(old(container.factories), k,
             Labelled(InjectableNew(klass, metaKey), o.wirer, o.tags, at.value)) else old(container.factories))
      ensures container.values == old(container.values) && container.heap == old(container.heap)
    {
      var o := EffectiveOptions(first, second, NoProviderOptions);
      var k := RegisteredKey(first, klass);
      var at := factory.GetAutoTags(klass, k);
      if at.Err? {
        return Err(at.error);
      }
      container.Factory(k, Labelled(InjectableNew(klass, metaKey), o.wirer, o.tags, at.value));
      return Ok(());
    }

    /** `inject(type)(target, propertyKey, parameterIndex)`. */
    method Inject(k: Key, target: nat, property: Option<string>, index: nat)
      modifies store
      ensures store.table == WithInjection(old(store.table), Slot(metaKey, target, property), Injection(index, k))
    {
      store.Push(Slot(metaKey, target, property), Injection(index, k));
    }
  }
}
