/** `ServiceLocator` and its two kinds, `FilteredServiceLocator` and
    `TaggedServiceLocator`: a view of a container, bound once, that resolves only
    the keys `getSupportedServices()` lists. */
module Locators {
  import opened Common
  import opened TagsKey
  import opened Registry
  import opened Resolution
  import ResolutionLemmas
  import ContainerImpl

  /** A filtered locator's `filter(name, options)`, or a tagged locator's tag,
      fixed when the locator is constructed. */
  datatype Kind = Filtered(filter: ContainerImpl.FactoryFilter) | Tagged(tag: string)

  /** `getSupportedServices()`: `filterFactories(filter)` or `getTaggedFactories(tag)`
      of the bound container, evaluated on its registered factories. */
  function SupportedKeys(kind: Kind, filterFactories: (Registry, ContainerImpl.FactoryFilter) -> seq<Key>,
                         taggedFactories: (Registry, string) -> seq<Key>, r: Registry): (keys: seq<Key>)
    ensures kind.Filtered? ==> keys == filterFactories(r, kind.filter)
    ensures kind.Tagged? ==> keys == taggedFactories(r, kind.tag)
  {
    match kind
    case Filtered(f) => filterFactories(r, f)
    case Tagged(t) => taggedFactories(r, t)
  }

  /** `resolve(name)` of a locator whose supported keys, for given factories,
      are `supported(factories)`: a key outside the list is rejected without
      touching the container; otherwise the untagged `container.resolve(name)`,
      whose value is the container's cached instance of that key. */
  function LocatorResolve(st: State, supported: Registry -> seq<Key>, meta: Metadata, name: Key, fuel: nat): (r: Out<Value>)
    ensures name !in supported(st.factories) ==> r == Out(st, Err(UnsupportedService))
    ensures r.st.factories == st.factories
    ensures r.res.Ok? ==> name in supported(st.factories) && r.res.value == Cached(r.st.values, name, BuildTagsKey([]))
  {
    if name !in supported(st.factories) then Out(st, Err(UnsupportedService))
    else Resolve(st, meta, Request(name, []), fuel)
  }

  /** Once resolved through the locator, a truthy value is served again from the
      cache: the same instance, and nothing changes. */
  lemma LocatorSameInstance(st: State, supported: Registry -> seq<Key>, meta: Metadata, name: Key, fuel: nat, fuel': nat)
    requires LocatorResolve(st, supported, meta, name, fuel).res.Ok?
    requires Truthy(LocatorResolve(st, supported, meta, name, fuel).res.value)
    ensures var r := LocatorResolve(st, supported, meta, name, fuel);
      LocatorResolve(r.st, supported, meta, name, fuel') == r
  {
    ResolutionLemmas.ResolveMemoized(st, meta, Request(name, []), fuel, fuel');
  }

  /** `resolveAll()` from position `i` on: each key through the locator's own
      `resolve`, in list order, stopping at the first failure. */
  function ResolveAllFrom(st: State, supported: Registry -> seq<Key>, meta: Metadata, keys: seq<Key>, i: nat, acc: seq<Value>, fuel: nat): Out<seq<Value>>
    requires i <= |keys|
    decreases |keys| - i
  {
    if i == |keys| then Out(st, Ok(acc))
    else
      var x := LocatorResolve(st, supported, meta, keys[i], fuel);
      if x.res.Err? then Out(x.st, Err(x.res.error))
      else ResolveAllFrom(x.st, supported, meta, keys, i + 1, acc + [x.res.value], fuel)
  }

  /** Since resolving never changes the registered factories, every key of the
      supported list passes the locator's check again: `resolveAll` resolves
      exactly the supported keys, untagged, in their order. */
  lemma {:induction false} ResolveAllIsEvalList(st: State, supported: Registry -> seq<Key>, meta: Metadata, keys: seq<Key>, i: nat, acc: seq<Value>, fuel: nat)
    requires i <= |keys| && keys == supported(st.factories)
    ensures ResolveAllFrom(st, supported, meta, keys, i, acc, fuel) == EvalList(st, meta, KeyRequests(keys), i, acc, fuel)
    decreases |keys| - i
  {
    if i < |keys| {
      var x := Resolve(st, meta, Request(keys[i], []), fuel);
      assert keys[i] in supported(st.factories);
      assert LocatorResolve(st, supported, meta, keys[i], fuel) == x;
      assert KeyRequests(keys)[i] == Dep(Request(keys[i], []));
      if x.res.Ok? {
        ResolveAllIsEvalList(x.st, supported, meta, keys, i + 1, acc + [x.res.value], fuel);
      }
    }
  }

  /** When every supported key already holds a truthy untagged value,
      `resolveAll()` yields exactly those values, one per supported key in list
      order, each the one `container.resolve` of that key returns, and changes
      nothing. */
  lemma ResolveAllOfCached(st: State, supported: Registry -> seq<Key>, meta: Metadata, keys: seq<Key>, fuel: nat)
    requires keys == supported(st.factories)
    requires forall j :: 0 <= j < |keys| ==> ResolutionLemmas.Ready(st, Dep(Request(keys[j], [])))
    ensures var vs := seq(|keys|, j requires 0 <= j < |keys| => Cached(st.values, keys[j], BuildTagsKey([])));
      && ResolveAllFrom(st, supported, meta, keys, 0, [], fuel) == Out(st, Ok(vs))
      && forall j :: 0 <= j < |keys| ==> Resolve(st, meta, Request(keys[j], []), fuel) == Out(st, Ok(vs[j]))
  {
    var es := KeyRequests(keys);
    var vs := seq(|keys|, j requires 0 <= j < |keys| => Cached(st.values, keys[j], BuildTagsKey([])));
    forall j | 0 <= j < |es| ensures ResolutionLemmas.Ready(st, es[j]) {
      assert es[j] == Dep(Request(keys[j], []));
    }
    ResolveAllIsEvalList(st, supported, meta, keys, 0, [], fuel);
    ResolutionLemmas.EvalListReady(st, meta, es, 0, [], fuel);
    assert es[0..] == es;
    var cur := ResolutionLemmas.CurrentAll(st, es);
    assert cur == vs by {
      forall j | 0 <= j < |keys| ensures cur[j] == vs[j] {
        assert es[j] == Dep(Request(keys[j], []));
      }
    }
    assert [] + cur == cur;
    forall j | 0 <= j < |keys| ensures Resolve(st, meta, Request(keys[j], []), fuel) == Out(st, Ok(vs[j])) {
      ResolutionLemmas.EvalReady(st, meta, es[j], fuel);
    }
  }

  /** The supported keys of a locator of kind `kind` over a container's functions. */
  function Supporter(kind: Kind, filterFactories: (Registry, ContainerImpl.FactoryFilter) -> seq<Key>,
                     taggedFactories: (Registry, string) -> seq<Key>): Registry -> seq<Key>
  {
    (r: Registry) => SupportedKeys(kind, filterFactories, taggedFactories, r)
  }

  class ServiceLocator {
    /** `_container`, `null` until the setter binds it. */
    var container: ContainerImpl.Container?
    const kind: Kind

    /** A tagged locator's tag, or a filtered locator's filter, is fixed here. */
    constructor(kind: Kind)
      ensures container == null && this.kind == kind
    {
      container := null;
      this.kind := kind;
    }

    /** `set container(c)`: binds once; a second assignment fails and keeps the binding. */
    method SetContainer(c: ContainerImpl.Container) returns (r: Result<()>)
      modifies this
      ensures old(container) == null ==> container == c && r == Ok(())
      ensures old(container) != null ==> container == old(container) && r == Err(AlreadyBound)
    {
      if container == null {
        container := c;
        return Ok(());
      }
      return Err(AlreadyBound);
    }

    /** `getSupportedServices()`; it fails on an unbound locator. */
    function Supported(): (r: Result<seq<Key>>)
      reads this, container
      ensures container == null ==> r == Err(NotBound)
      ensures container != null ==>
        r == Ok(SupportedKeys(kind, container.filterFactories, container.taggedFactories, container.factories))
    {
      if container == null then Err(NotBound)
      else Ok(SupportedKeys(kind, container.filterFactories, container.taggedFactories, container.factories))
    }

    /** `resolve(name)`. */
    method Resolve(name: Key, meta: Metadata, fuel: nat) returns (r: Result<Value>)
      modifies container
      ensures container == null ==> r == Err(NotBound)
      ensures container != null ==>
        Out(container.St(), r) == LocatorResolve(old(container.St()), Supporter(kind, container.filterFactories, container.taggedFactories), meta, name, fuel)
    {
      var supported := Supported();
      if supported.Err? {
        return Err(supported.error);
      }
      if name !in supported.value {
        return Err(UnsupportedService);
      }
      r := container.Resolve(Request(name, []), meta, fuel);
    }

    /** `resolveAll()`: `resolve` of each supported key, in order. */
    method ResolveAll(meta: Metadata, fuel: nat) returns (r: Result<seq<Value>>)
      modifies container
      ensures container == null ==> r == Err(NotBound)
      ensures container != null ==>
        var supported := Supporter(kind, container.filterFactories, container.taggedFactories);
        Out(container.St(), r) == ResolveAllFrom(old(container.St()), supported, meta, supported(old(container.factories)), 0, [], fuel)
    {
      var found := Supported();
      if found.Err? {
        return Err(found.error);
      }
      var supported := Supporter(kind, container.filterFactories, container.taggedFactories);
      var keys := found.value;
      ghost var start := container.St();
      var acc: seq<Value> := [];
      for i := 0 to |keys|
        invariant ResolveAllFrom(start, supported, meta, keys, 0, [], fuel) == ResolveAllFrom(container.St(), supported, meta, keys, i, acc, fuel)
      {
        ghost var before := container.St();
        var x := Resolve(keys[i], meta, fuel);
        assert Out(container.St(), x) == LocatorResolve(before, supported, meta, keys[i], fuel);
        if x.Err? {
          return Err(x.error);
        }
        acc := acc + [x.value];
      }
      return Ok(acc);
    }
  }
}
