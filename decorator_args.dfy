/** What the two decorator layers share: how a decorator's first argument is
    told apart from its options, which key a decorated class is registered
    under, and the reflection metadata store that `inject` writes and the
    injectable builders read. */
module DecoratorArgs {
  import opened Common
  import opened Registry
  import Resolution

  /** A decorator argument: omitted, `null`, a factory name, or an options object. */
  datatype Arg<O> = Omitted | Null | Name(k: Key) | Options(o: O)

  /** `typeof a`. */
  function TypeOf<O>(a: Arg<O>): string {
    match a
    case Omitted => "undefined"
    case Null => "object"
    case Options(_) => "object"
    case Name(KString(_)) => "string"
    case Name(KNumber(_)) => "number"
    case Name(KSymbol(_)) => "symbol"
    case Name(KFunction(_)) => "function"
  }

  /** `isFactoryName(value)`: its type is string, number, symbol or function. */
  function IsFactoryName<O>(a: Arg<O>): (r: bool)
    ensures r <==> a.Name?
  {
    TypeOf(a) in ["string", "number", "symbol", "function"]
  }

  /** The options a decorator ends up with: those of the second argument when
      the first is a name, otherwise `first || {}`. */
  function EffectiveOptions<O>(first: Arg<O>, second: Option<O>, empty: O): (o: O)
    ensures first.Options? ==> o == first.o
    ensures (first.Omitted? || first.Null?) ==> o == empty
    ensures first.Name? ==> o == (if second.Some? then second.value else empty)
  {
    if IsFactoryName(first) then (if second.Some? then second.value else empty)
    else if first.Options? then first.o
    else empty
  }

  /** `typeToRegister`: the explicit name if there is one, otherwise the class. */
  function RegisteredKey<O>(first: Arg<O>, klass: nat): (k: Key)
    ensures first.Name? ==> k == first.k
    ensures !first.Name? ==> k == KFunction(klass)
  {
    if IsFactoryName(first) then first.k else KFunction(klass)
  }

  // ---------------------------------------------------------------------------
  // Reflection metadata

  /** `Reflect.getOwnMetadata(key, target, property) || []`. */
  function Stored(meta: Metadata, slot: Slot): seq<Injection> {
    if slot in meta then meta[slot] else []
  }

  /** The metadata after `inject` pushed `inj` onto the list of `slot`. */
  function WithInjection(meta: Metadata, slot: Slot, inj: Injection): (m: Metadata)
    ensures Stored(m, slot) == Stored(meta, slot) + [inj]
    ensures forall s :: s != slot ==> Stored(m, s) == Stored(meta, s)
  {
    meta[slot := Stored(meta, slot) + [inj]]
  }

  /** An injection recorded under one metadata key is never seen by an injectable
      builder reading another key. */
  lemma InjectionIsolated(meta: Metadata, mk: MetaKey, target: nat, property: Option<string>, inj: Injection, mk': MetaKey, klass: nat)
    requires mk != mk'
    ensures Resolution.Injections(WithInjection(meta, Slot(mk, target, property), inj), mk', klass)
         == Resolution.Injections(meta, mk', klass)
  {
    var slot := Slot(mk', klass, None);
    assert slot != Slot(mk, target, property);
    assert Stored(WithInjection(meta, Slot(mk, target, property), inj), slot) == Stored(meta, slot);
  }

  /** A parameter decorator on a constructor (no property key) is what the
      injectable builder of the same class and metadata key reads back. */
  lemma ConstructorInjectionSeen(meta: Metadata, mk: MetaKey, klass: nat, inj: Injection)
    ensures Resolution.Injections(WithInjection(meta, Slot(mk, klass, None), inj), mk, klass)
         == Resolution.Injections(meta, mk, klass) + [inj]
  {
    assert Stored(WithInjection(meta, Slot(mk, klass, None), inj), Slot(mk, klass, None))
        == Stored(meta, Slot(mk, klass, None)) + [inj];
  }

  /** The global reflection metadata table of `reflect-metadata`. */
  class MetadataStore {
    var table: Metadata

    constructor()
      ensures table == map[]
    {
      table := map[];
    }

    /** `getOwnMetadata(key, target, property) || []`, push, `defineMetadata`. */
    method Push(slot: Slot, inj: Injection)
      modifies this
      ensures table == WithInjection(old(table), slot, inj)
    {
      var existing := if slot in table then table[slot] else [];
      existing := existing + [inj];
      table := table[slot := existing];
    }
  }

  /** `Symbol(description)`: every call yields a symbol never seen before. */
  class Symbols {
    var next: nat

    constructor()
      ensures next == 0
    {
      next := 0;
    }

    method Fresh() returns (sym: nat)
      modifies this
      ensures sym == old(next) && next == old(next) + 1
    {
      sym := next;
      next := next + 1;
    }
  }
}
