# A verified model of the coco dependency-injection container

This project models the core of the coco container in Dafny:

- `Container`: factories registered per key and tags, looked up by a canonical tags key, and built lazily into a value cache;
- the two decorator layers that register classes with it, `ContainerFactory` and `ContainerDecoratorsBuilder`;
- the service locators, which give a restricted view of a container;
- the plugin loader, which boots plugins in load order with their merged configuration.

Values a builder constructs live on an explicit heap of objects (`Obj`), so identity ("the same instance") and the fields a wirer (a `decoratorFunction`) assigns are observable. The reflection metadata that `inject` writes is an explicit side table.

The modules follow the program's structure:

| module | file | what it models |
|---|---|---|
| `Common` | `common.dfy` | values, keys and errors |
| `Strings` | `strings.dfy` | the string order of `sort()`, `String(n)` and `parseInt` |
| `TagsKey` | `tags_key.dfy` | `buildTagsKey` |
| `Registry` | `registry.dfy` | `register`, `resolveFactory` and `checkSanity` |
| `BuildSteps` | `build_steps.dfy` | sorting injections by index, `toInteger`, placing dependencies by position |
| `Resolution` | `resolution.dfy` | `resolve` and `buildValue` as functions of the container state |
| `ResolutionLemmas` | `resolution_lemmas.dfy` | memoization, builder arguments, cycles closed by wirers |
| `ContainerImpl` | `container.dfy` | `class Container`, whose methods update the state in place and are each proved equal to the corresponding function of `Resolution` |
| `DecoratorArgs` | `decorator_args.dfy` | argument juggling shared by the decorators, the metadata store, symbols |
| `FactoryLayer` | `container_factory.dfy` | `ContainerFactory` and the decorators `build()` returns |
| `BuilderLayer` | `decorators_builder.dfy` | `ContainerDecoratorsBuilder` |
| `Locators` | `service_locator.dfy` | `ServiceLocator`, `FilteredServiceLocator` and `TaggedServiceLocator` |
| `Plugins` | `plugin_loader.dfy` | `PluginLoader` |

Several things are parameters of the model rather than parts of it:

- `filterFactories` and `getTaggedFactories` are called by the locators but their bodies are not modelled. They are function-valued fields of the container.
- The plugins' `registerServices` is not modelled, so `boot` returns the calls it makes.
- `deepmerge` is a function parameter of `boot`.
- `Math.random()` becomes a nonce string.
- `Symbol()` becomes a counter.
- Recursion depth is bounded by a `fuel` argument. A build nested deeper than the fuel fails with `StackOverflow`. In the builders that call `resolve` before their first `await` (ContainerFactory.ts:93 and 171, ContainerDecoratorsBuilder.ts:70) that is the `RangeError` a self-dependent factory without a wirer raises in the JavaScript engine. The injectable builder awaits `dependenciesGetter(resolve)` (ContainerDecoratorsBuilder.ts:121) before its first `resolve`, so each level starts on a fresh microtask: there the source never settles and its memory grows, and `StackOverflow` stands for that non-termination.

## Model

| member | source | states |
|---|---|---|
| TagsKey.SortByName | api/app/libs/core/container/Container.ts:79 | the tag properties are permuted into a list of the same length |
| TagsKey.SortByNameSorted | api/app/libs/core/container/Container.ts:79 | with distinct property names, the sorted list is strictly ascending by name |
| TagsKey.InsertByNameSorted | api/app/libs/core/container/Container.ts:79 | inserting a new name into an ascending list keeps it ascending |
| TagsKey.ReduceIsConcatenation | api/app/libs/core/container/Container.ts:79-81 | the fold from an accumulator appends `_name_value` for each property in list order |
| TagsKey.BuildTagsKeyIsSortedConcatenation | api/app/libs/core/container/Container.ts:78-82 | the key is the concatenation of `_name_value` in ascending name order; the key is empty exactly when there are no tags |
| TagsKey.BuildTagsKey | api/app/libs/core/container/Container.ts:78-82 | the canonical tags key: `BuildTagsKeyIsSortedConcatenation` characterizes it as the concatenation of `_name_value` in ascending name order, and `TagsOrderIrrelevant` shows the written order does not matter |
| TagsKey.SortedUnique | api/app/libs/core/container/Container.ts:79 | two strictly sorted lists with the same elements are equal |
| TagsKey.TagsOrderIrrelevant | api/app/libs/core/container/Container.ts:78-82 | two tags objects with the same properties written in any order get the same key |
| TagsKey.ArrayTagsNeverUntagged | api/app/libs/core/container/Container.ts:78-82 | a tag array, even an empty one, never gets the untagged key; the empty array gets `_length_0` |
| Strings.Digits | api/app/libs/core/container/Container.ts:80 | every number has a non-empty decimal string |
| Strings.TrimStart | api/app/libs/core/container/ContainerDecoratorsBuilder.ts:41 | `parseInt` drops exactly the leading whitespace: the rest is a suffix that starts with no whitespace |
| Strings.DigitPrefixLength | api/app/libs/core/container/ContainerDecoratorsBuilder.ts:41 | the length of the longest prefix made of digits |
| Strings.DigitsAreDigits | api/app/libs/core/container/ContainerDecoratorsBuilder.ts:41 | the decimal string of `n` consists of digits whose value is `n` |
| Strings.DigitsParse | api/app/libs/core/container/ContainerDecoratorsBuilder.ts:41 | the unsigned part of `parseInt` reads the decimal string of `n` back as `n` |
| Strings.ParseIntOfDigits | api/app/libs/core/container/ContainerDecoratorsBuilder.ts:41 | `parseInt(String(n)) == n` for natural `n` |
| Strings.ParseIntOfMinusDigits | api/app/libs/core/container/ContainerDecoratorsBuilder.ts:41 | `parseInt("-" + String(n)) == -n` |
| Strings.ParseIntOfDecimalString | api/app/libs/core/container/ContainerDecoratorsBuilder.ts:41-42 | round trip: `parseInt(String(n)) == n` for every integer |
| Strings.ParseInt | api/app/libs/core/container/ContainerDecoratorsBuilder.ts:41 | `parseInt` without a radix: `ParseIntOfDecimalString` shows it undoes `String(n)`, and the `ToInteger` lemmas show what it makes of other strings |
| Registry.Matching | api/app/libs/core/container/Container.ts:87 | filtering never lengthens the list |
| Registry.MatchingNone | api/app/libs/core/container/Container.ts:87-89 | nothing matches exactly when no entry has the tags key |
| Registry.MatchingMany | api/app/libs/core/container/Container.ts:87-91 | two or more match exactly when two distinct entries have the tags key |
| Registry.MatchingOne | api/app/libs/core/container/Container.ts:87-95 | a single match is the one position whose tags key matches |
| Registry.ResolveFactory | api/app/libs/core/container/Container.ts:84-96 | a found entry has the tags key of the request |
| Registry.ResolveFactoryCorrect | api/app/libs/core/container/Container.ts:84-96 | the result is the unique matching entry; no match exactly when no entry has the key; ambiguity exactly when two do; there is no other failure and no fallback |
| Registry.SortStrings | api/app/libs/core/container/Container.ts:59 | `sort()` permutes the tags keys |
| Registry.SortStringsSorted | api/app/libs/core/container/Container.ts:59 | `sort()` yields a non-decreasing list |
| Registry.SortedDuplicateIsAdjacent | api/app/libs/core/container/Container.ts:60-61 | in a sorted list an element is repeated exactly when two neighbours are equal |
| Registry.DuplicateIsRepeated | api/app/libs/core/container/Container.ts:60-61 | a duplicate is an element whose multiplicity is at least two, whatever the order |
| Registry.SanityByAdjacentKeys | api/app/libs/core/container/Container.ts:57-66 | comparing neighbours after sorting the entries' tags keys (`TagsKeys`) finds a duplicate exactly when two entries of the key share a tags key |
| Registry.Sane | api/app/libs/core/container/Container.ts:57-66 | no key has two entries with one tags key; `Container.CheckSanity` fails exactly when it does not hold, and `SanityByAdjacentKeys` ties it to the neighbour check |
| Registry.RegisteredAppendsOne | api/app/libs/core/container/Container.ts:68-76 | registering appends exactly one entry to that key's list, the options with the tags key of their tags (`MakeEntry`); other keys keep theirs |
| Registry.RegisteredWellKeyed | api/app/libs/core/container/Container.ts:68-76 | registering keeps every entry's tags key equal to that of its tags |
| Registry.Registered | api/app/libs/core/container/Container.ts:68-76 | the registry after `register`: `RegisteredAppendsOne` characterizes it, `RegisteredWellKeyed` and `RegisteredResolveFactory` state what it preserves |
| Registry.UntaggedMatchesOnlyUntagged | api/app/libs/core/container/Container.ts:84-96 | an untagged request finds only an untagged entry, and a tagged request never finds one |
| Registry.RegisteredResolveFactory | api/app/libs/core/container/Container.ts:68-96 | after a registration, other lookups are unchanged; a lookup with the new key and tags key finds the new entry if it found none before and is ambiguous otherwise |
| BuildSteps.SortByIndex | api/app/libs/core/container/ContainerFactory.ts:92 | the sort permutes the injections |
| BuildSteps.InsertByIndexSorted | api/app/libs/core/container/ContainerFactory.ts:92 | inserting keeps the list ordered by index |
| BuildSteps.InsertByIndexStable | api/app/libs/core/container/ContainerFactory.ts:92 | an inserted injection goes before the others on the same index |
| BuildSteps.SortByIndexSorted | api/app/libs/core/container/ContainerFactory.ts:92 | the injections come out in ascending index order |
| BuildSteps.SortByIndexStable | api/app/libs/core/container/ContainerFactory.ts:92 | injections on the same index keep their relative order |
| BuildSteps.SortByIndexCorrect | api/app/libs/core/container/ContainerFactory.ts:92 | the sort is a stable sort: ordered, a permutation, and stable |
| BuildSteps.ToIntegerCharacterization | api/app/libs/core/container/ContainerDecoratorsBuilder.ts:39-47 | `toInteger` accepts exactly the decimal strings of integers, returning that integer, and the string `"NaN"`; every other string throws |
| BuildSteps.ToIntegerRejectsLeadingZero | api/app/libs/core/container/ContainerDecoratorsBuilder.ts:39-47 | `"07"` is rejected |
| BuildSteps.ToIntegerRejectsTrailing | api/app/libs/core/container/ContainerDecoratorsBuilder.ts:39-47 | `"7a"` is rejected |
| BuildSteps.ToIntegerRejectsLength | api/app/libs/core/container/ContainerDecoratorsBuilder.ts:39-47 | an array's `length` key is rejected |
| BuildSteps.ToInteger | api/app/libs/core/container/ContainerDecoratorsBuilder.ts:39-47 | `toInteger`: `ToIntegerCharacterization` states exactly which strings it accepts |
| BuildSteps.Put | api/app/libs/core/container/ContainerDecoratorsBuilder.ts:128 | after `o[k] = v` on an object, key `k` reads `v` and every other key reads what it read before (on an array only as far as stated under Left out) |
| BuildSteps.PutKeys | api/app/libs/core/container/ContainerDecoratorsBuilder.ts:128 | the keys after the assignment are the old keys plus `k`, none repeated |
| BuildSteps.SetElement | api/app/libs/core/container/ContainerDecoratorsBuilder.ts:133 | an array element assignment sets the element and grows the array with holes; an index that is not an array index leaves the elements alone |
| BuildSteps.PlaceCorrect | api/app/libs/core/container/ContainerDecoratorsBuilder.ts:131-134 | the placement loop establishes the invariant over every property |
| BuildSteps.PlaceIsPositional | api/app/libs/core/container/ContainerDecoratorsBuilder.ts:131-134 | argument `m` is the value provided under key `String(m)`; positions without a key are undefined; the list ends at the largest position a key names |
| BuildSteps.PlaceFailsOnBadKey | api/app/libs/core/container/ContainerDecoratorsBuilder.ts:131-134 | placing fails exactly when some key is not an integer string and not `"NaN"` |
| BuildSteps.Place | api/app/libs/core/container/ContainerDecoratorsBuilder.ts:131-134 | the positional argument list: `PlaceIsPositional` and `PlaceFailsOnBadKey` characterize its result and its failures |
| Resolution.Store | api/app/libs/core/container/Container.ts:99-102 | the cache slot of the key and tags key takes the value; every other slot keeps its value |
| Resolution.Construct | api/app/libs/core/container/ContainerFactory.ts:174 | `new Klass(...args)` appends a fresh object to the heap and returns a reference to it |
| Resolution.SetField | api/app/libs/core/container/Container.ts:104 | a field assignment changes only that field of that object |
| Resolution.Resolve | api/app/libs/core/container/Container.ts:46-55 | factories never change; a success returns what the cache holds afterwards; a lookup failure is returned and changes nothing |
| Resolution.BuildValue | api/app/libs/core/container/Container.ts:98-106 | building never changes the registered factories |
| Resolution.RunBuilder | api/app/libs/core/container/Container.ts:102 | running a factory function never changes the registered factories |
| Resolution.CallDeps | api/app/libs/core/container/ContainerFactory.ts:144 | calling getDependencies never changes the registered factories |
| Resolution.Eval | api/app/libs/core/container/ContainerFactory.ts:171-173 | evaluating a dependency never changes the registered factories |
| Resolution.EvalList | api/app/libs/core/container/ContainerFactory.ts:171-173 | the values are appended in list order, one per expression |
| Resolution.EvalProps | api/app/libs/core/container/ContainerDecoratorsBuilder.ts:121 | evaluating an object's property values never changes the registered factories |
| Resolution.InjectOne | api/app/libs/core/container/ContainerDecoratorsBuilder.ts:124-128 | one injection never changes the registered factories |
| Resolution.Inject | api/app/libs/core/container/ContainerDecoratorsBuilder.ts:123-129 | the injection loop never changes the registered factories |
| Resolution.InjectIntoPrimitive | api/app/libs/core/container/ContainerDecoratorsBuilder.ts:123-134 | injecting into a primitive getDependencies result never succeeds and never changes the registered factories |
| Resolution.Assign | api/app/libs/core/container/Container.ts:104 | a successful field assignment changes neither the factories nor the cache |
| Resolution.WireField | api/app/libs/core/container/Container.ts:103-105 | a wirer step never changes the registered factories |
| Resolution.Wire | api/app/libs/core/container/Container.ts:103-105 | a wirer never changes the registered factories |
| ResolutionLemmas.ResolveMemoized | api/app/libs/core/container/Container.ts:50-54 | once a truthy value is resolved, resolving again returns the same instance and changes nothing, however little fuel is left |
| ResolutionLemmas.ServedFromCacheIffTruthy | api/app/libs/core/container/Container.ts:50 | resolve succeeds without building exactly when the entry exists and its cached value is truthy; a falsy cached value is rebuilt |
| Common.Truthy | api/app/libs/core/container/Container.ts:50 | JavaScript truthiness: `ServedFromCacheIffTruthy` and `ResolveMemoized` show that exactly the truthy cached values are served, and `InjectRejectsSupplied` that a truthy supplied position is refused |
| ResolutionLemmas.CurrentAll | api/app/libs/core/container/Container.ts:54 | the cached value of each ready expression, position by position |
| ResolutionLemmas.EvalReady | api/app/libs/core/container/Container.ts:50-54 | a ready expression evaluates to its cached value and changes nothing |
| ResolutionLemmas.EvalListReady | api/app/libs/core/container/ContainerFactory.ts:171-173 | evaluating ready expressions changes nothing and yields their cached values in order |
| ResolutionLemmas.ServiceArgumentsInOrder | api/app/libs/core/container/ContainerFactory.ts:170-174 | with every `dependsOn` key cached, the service is constructed with those values in list order (one untagged request per key, `KeyRequests`), and only the heap changes |
| ResolutionLemmas.EvalInjectionsReady | api/app/libs/core/container/ContainerFactory.ts:93-95 | with every injected key cached, the injections evaluate to their cached values in order (one untagged request per injection, `InjectionRequests`) |
| ResolutionLemmas.InjectableArgumentsByIndex | api/app/libs/core/container/ContainerFactory.ts:90-96 | argument `j` of the injectable is the value of the `j`-th injection in ascending index order |
| ResolutionLemmas.ProviderRequiresArray | api/app/libs/core/container/ContainerFactory.ts:143-148 | a provider builds exactly when getDependencies returned an array, spread as the arguments; otherwise it fails and constructs nothing |
| ResolutionLemmas.InjectNeverOverrides | api/app/libs/core/container/ContainerDecoratorsBuilder.ts:123-129 | a successful build never replaces a truthy value getDependencies supplied at an injected position |
| ResolutionLemmas.InjectRejectsSupplied | api/app/libs/core/container/ContainerDecoratorsBuilder.ts:125-127 | an injection at a position already supplied with a truthy value fails the build |
| ResolutionLemmas.PositionalPrimitiveFails | api/app/libs/core/container/ContainerDecoratorsBuilder.ts:121-134 | on a primitive getDependencies result nothing is constructed: with no injections the build fails at once; otherwise the first injected key is resolved first, and the build fails with that resolve's error, with the duplicate-injection error for a string that has a character at the injected position, or as a property access on a primitive |
| ResolutionLemmas.InjectKeepsLength | api/app/libs/core/container/ContainerDecoratorsBuilder.ts:123-129 | an array's `length` is still an own key after the injections (its value is not tracked) |
| ResolutionLemmas.ArrayPlaceFails | api/app/libs/core/container/ContainerDecoratorsBuilder.ts:131-134 | whatever is injected into an array's own properties (`ArrayProps`: its indices, then `length`), placing them fails on `length` |
| ResolutionLemmas.PositionalArrayFails | api/app/libs/core/container/ContainerDecoratorsBuilder.ts:121-134 | an array returned by getDependencies never yields an object, although the declared return type admits one |
| ResolutionLemmas.WireBackToCached | api/app/libs/core/container/Container.ts:103-105 | the second object's wirer finds the first object in the cache |
| ResolutionLemmas.BuildSecond | api/app/libs/core/container/Container.ts:98-106 | building the second object caches it, then wires it to the first |
| ResolutionLemmas.InnerBuildSeesCachedValue | api/app/libs/core/container/Container.ts:46-55 | resolving the second object inside the first one's wirer builds it against the cached first object |
| ResolutionLemmas.WireFirst | api/app/libs/core/container/Container.ts:103-105 | the first object's wirer builds the second and stores it in its field |
| ResolutionLemmas.BuildFirst | api/app/libs/core/container/Container.ts:98-106 | the first object is cached before its wirer runs, so the cycle closes |
| ResolutionLemmas.MutualWiring | api/app/libs/core/container/Container.ts:46-55 | two wirers that resolve each other produce two objects holding each other |
| ResolutionLemmas.BackReferencesEitherOrder | api/app/libs/core/container/Container.ts:46-55 | whichever of the two is resolved first, the second is a cache hit and the back-references hold |
| ResolutionLemmas.ResolveKeepsTruthy | api/app/libs/core/container/Container.ts:46-55 | no resolve replaces a truthy cached value: it builds only an entry whose cached value is falsy |
| ResolutionLemmas.BuildValueKeepsTruthy | api/app/libs/core/container/Container.ts:98-106 | building an entry whose cached value is falsy replaces no truthy cached value, its own store included |
| ResolutionLemmas.RunBuilderKeepsTruthy | api/app/libs/core/container/Container.ts:102 | no factory function replaces a truthy cached value |
| ResolutionLemmas.InjectKeepsTruthy | api/app/libs/core/container/ContainerDecoratorsBuilder.ts:123-129 | the injection loop replaces no truthy cached value |
| ResolutionLemmas.WireKeepsTruthy | api/app/libs/core/container/Container.ts:103-105 | no wirer replaces a truthy cached value |
| ResolutionLemmas.BuildValueWiresStoredValue | api/app/libs/core/container/Container.ts:98-106 | the builder's value is stored before the wirer runs, and the wirer is given exactly that value; when it is truthy it is still cached once the wirer returns, whether the wirer succeeded or failed |
| ResolutionLemmas.ResolveHitsKeptValue | api/app/libs/core/container/Container.ts:50-54 | in any later state that kept the truthy cached values, resolving a request whose value was truthy is a cache hit returning that value; so every resolve of the key being built that its wirer makes returns the builder's value |
| ContainerImpl.Container.constructor | api/app/libs/core/container/Container.ts:29-31 | a new container has no factories, no values and no objects |
| ContainerImpl.Container.Factory | api/app/libs/core/container/Container.ts:33-35 | the entry is registered; nothing else changes |
| ContainerImpl.Container.Value | api/app/libs/core/container/Container.ts:37-44 | an entry whose builder returns the given value is registered with the given tags |
| ContainerImpl.Container.Register | api/app/libs/core/container/Container.ts:68-76 | the entry, with its tags key, is appended to the key's list |
| ContainerImpl.Container.CheckSanity | api/app/libs/core/container/Container.ts:57-66 | it fails exactly when some key has two entries with the same tags key |
| ContainerImpl.SanityStep | api/app/libs/core/container/Container.ts:59-64 | for one key, the neighbour check finds a duplicate exactly when the tags keys repeat |
| ContainerImpl.Container.Resolve | api/app/libs/core/container/Container.ts:46-55 | the new state and result are exactly those of `Resolution.Resolve` |
| ContainerImpl.Container.BuildValue | api/app/libs/core/container/Container.ts:98-106 | the new state and result are exactly those of `Resolution.BuildValue` |
| ContainerImpl.Container.NewObject | api/app/libs/core/container/ContainerFactory.ts:174 | a fresh object is appended to the heap; the factories and cache are unchanged |
| ContainerImpl.Container.RunBuilder | api/app/libs/core/container/Container.ts:102 | the new state and result are exactly those of `Resolution.RunBuilder`; a string returned to a service getter is spread one argument per character (`Chars`) |
| ContainerImpl.Container.CallDeps | api/app/libs/core/container/ContainerFactory.ts:144 | the new state and result are exactly those of `Resolution.CallDeps` |
| ContainerImpl.Container.Eval | api/app/libs/core/container/ContainerFactory.ts:172 | the new state and result are exactly those of `Resolution.Eval` |
| ContainerImpl.Container.EvalList | api/app/libs/core/container/ContainerFactory.ts:171-173 | the new state and result are exactly those of `Resolution.EvalList` |
| ContainerImpl.Container.EvalProps | api/app/libs/core/container/ContainerDecoratorsBuilder.ts:121 | the new state and result are exactly those of `Resolution.EvalProps` |
| ContainerImpl.Container.InjectOne | api/app/libs/core/container/ContainerDecoratorsBuilder.ts:124-128 | the new state and result are exactly those of `Resolution.InjectOne` |
| ContainerImpl.Container.Inject | api/app/libs/core/container/ContainerDecoratorsBuilder.ts:123-129 | the new state and result are exactly those of `Resolution.Inject` |
| ContainerImpl.Container.InjectIntoPrimitive | api/app/libs/core/container/ContainerDecoratorsBuilder.ts:123-134 | the new state and result are exactly those of `Resolution.InjectIntoPrimitive`, always a failure |
| ContainerImpl.Container.AssignField | api/app/libs/core/container/Container.ts:104 | the result and new state are those of `Resolution.Assign`; on failure nothing changes |
| ContainerImpl.Container.WireField | api/app/libs/core/container/Container.ts:103-105 | the new state and result are exactly those of `Resolution.WireField` |
| ContainerImpl.Container.Wire | api/app/libs/core/container/Container.ts:103-105 | the new state and result are exactly those of `Resolution.Wire` |
| ContainerImpl.PlaceDependencies | api/app/libs/core/container/ContainerDecoratorsBuilder.ts:131-134 | the loop computes `BuildSteps.Place`, whose positional meaning `PlaceIsPositional` states |
| DecoratorArgs.IsFactoryName | api/app/libs/core/container/ContainerDecoratorsBuilder.ts:35-37 | an argument is a factory name exactly when it is a string, number, symbol or function |
| DecoratorArgs.WithInjection | api/app/libs/core/container/ContainerDecoratorsBuilder.ts:95-100 | the slot's list gains the injection at its end; every other slot is unchanged |
| DecoratorArgs.InjectionIsolated | api/app/libs/core/container/ContainerDecoratorsBuilder.ts:92-103 | an injection recorded under one metadata key is never seen by a builder reading another key |
| DecoratorArgs.ConstructorInjectionSeen | api/app/libs/core/container/ContainerDecoratorsBuilder.ts:120 | a constructor parameter injection is read back by the injectable builder of the same class and key |
| DecoratorArgs.MetadataStore.constructor | api/app/libs/core/container/ContainerDecoratorsBuilder.ts:95 | the metadata table starts empty |
| DecoratorArgs.MetadataStore.Push | api/app/libs/core/container/ContainerDecoratorsBuilder.ts:95-100 | the table becomes `WithInjection` of the old table |
| DecoratorArgs.Symbols.constructor | api/app/libs/core/container/ContainerDecoratorsBuilder.ts:52 | no symbol has been made yet |
| DecoratorArgs.Symbols.Fresh | api/app/libs/core/container/ContainerDecoratorsBuilder.ts:52 | every symbol is new: the counter value is returned, then advanced |
| FactoryLayer.AutoTagsAppend | api/app/libs/core/container/ContainerFactory.ts:64-71 | no taggers give no tags; adding a tagger appends its list, and a tagger returning `undefined` makes the spread fail |
| FactoryLayer.AutoTags | api/app/libs/core/container/ContainerFactory.ts:64-71 | the concatenated auto-tags: `AutoTagsAppend` characterizes it tagger by tagger, and `ContainerFactory.GetAutoTags` computes it |
| FactoryLayer.AsWrittenUntaggedUnaffected | api/app/libs/core/container/ContainerFactory.ts:177 | as written (`AsWritten`: the tag array goes where the container expects a tags object), a decorated class never becomes visible to an untagged `resolve` |
| FactoryLayer.LabelledResolvableUntagged | api/app/libs/core/container/ContainerFactory.ts:169-178 | corrected (`Labelled`: the tag list, option tags first, becomes the labels and the tags object stays empty), an untagged `resolve` of the key finds the decorated class unless the key already had an untagged entry |
| FactoryLayer.PlanProvider | api/app/libs/core/container/ContainerFactory.ts:123-137 | a function first argument is getDependencies and the second its options; a name needs a function second argument; every other combination throws the missing-getDependencies error |
| FactoryLayer.InjectionsKeysDistinct | api/app/libs/core/container/ContainerFactory.ts:55 | two builds drawing different numbers use different metadata keys |
| FactoryLayer.ContainerFactory.constructor | api/app/libs/core/container/ContainerFactory.ts:47 | no auto-taggers at first |
| FactoryLayer.ContainerFactory.AddAutoTagging | api/app/libs/core/container/ContainerFactory.ts:49-51 | the tagger is appended |
| FactoryLayer.ContainerFactory.GetAutoTags | api/app/libs/core/container/ContainerFactory.ts:64-71 | the loop's result is `AutoTags` of the registered taggers |
| FactoryLayer.ContainerFactory.Build | api/app/libs/core/container/ContainerFactory.ts:53-62 | a fresh empty container, with decorators bound to it under the metadata key of the drawn number |
| FactoryLayer.ServiceContainer.constructor | api/app/libs/core/container/ContainerFactory.ts:61 | the object holds the container and the decorators' shared state |
| FactoryLayer.ServiceContainer.Service | api/app/libs/core/container/ContainerFactory.ts:157-181 | registers a builder that resolves `dependsOn` and constructs, under the name or the class, labelled with option tags and auto-tags; fails and registers nothing when auto-tagging fails; registers the corrected tags, see Findings |
| FactoryLayer.ServiceContainer.Provider | api/app/libs/core/container/ContainerFactory.ts:117-155 | a missing getDependencies fails before anything is registered; otherwise registers the array-checking provider builder; registers the corrected tags, see Findings |
| FactoryLayer.ServiceContainer.Injectable | api/app/libs/core/container/ContainerFactory.ts:73-101 | registers a builder that resolves the class's injections under this build's metadata key; registers the corrected tags, see Findings |
| FactoryLayer.ServiceContainer.Inject | api/app/libs/core/container/ContainerFactory.ts:103-115 | the injection is pushed onto the slot of this build's metadata key |
| BuilderLayer.DefaultGetterIsDependsOn | api/app/libs/core/container/ContainerDecoratorsBuilder.ts:69-83 | without getDependencies, the service builder (`ServiceGetter`) is the factory layer's `dependsOn` builder |
| BuilderLayer.InjectableDefaultStartsEmpty | api/app/libs/core/container/ContainerDecoratorsBuilder.ts:113-142 | without getDependencies or injections (`InjectableGetter` then supplies `{}`), the class is constructed with no arguments and nothing is resolved |
| BuilderLayer.DefaultTagsAsWritten | api/app/libs/core/container/ContainerDecoratorsBuilder.ts:112 | as written (`TagsAsWritten`: the default tags are `[]`), an untagged class is registered under `_length_0` and an untagged `resolve` does not find it |
| BuilderLayer.DefaultTagsResolvable | api/app/libs/core/container/ContainerDecoratorsBuilder.ts:112 | corrected (`TagsOrEmpty`: the default tags are `{}`), an untagged `resolve` finds the class unless its key already had an untagged entry |
| BuilderLayer.BuildDecorators | api/app/libs/core/container/ContainerDecoratorsBuilder.ts:51-58 | the decorators share a fresh symbol as their metadata key |
| BuilderLayer.ContainerDecorators.constructor | api/app/libs/core/container/ContainerDecoratorsBuilder.ts:53-57 | the decorators hold the container, the metadata store and the key |
| BuilderLayer.ContainerDecorators.Service | api/app/libs/core/container/ContainerDecoratorsBuilder.ts:60-90 | registers the getter builder with exactly the option tags, under the name or the class (`RegisteredKey`), with the options worked out from the two arguments (`EffectiveOptions`), corrected, see Findings |
| BuilderLayer.ContainerDecorators.Injectable | api/app/libs/core/container/ContainerDecoratorsBuilder.ts:105-150 | registers the positional builder reading this set's metadata key, under the name or the class (`RegisteredKey`), with the options worked out from the two arguments (`EffectiveOptions`), corrected, see Findings |
| BuilderLayer.ContainerDecorators.Inject | api/app/libs/core/container/ContainerDecoratorsBuilder.ts:92-103 | the injection is pushed onto the slot of this set's symbol |
| BuilderLayer.MissingPositions | api/app/libs/core/container/ContainerDecoratorsBuilder.ts:136-140 | the warned positions are exactly the undefined arguments, in ascending order |
| Locators.LocatorResolve | api/app/libs/core/container/ServiceLocator.ts:16-21 | an unsupported name fails and changes nothing; a success is supported and is the container's cached untagged instance |
| Locators.LocatorSameInstance | api/app/libs/core/container/ServiceLocator.ts:16-21 | resolving a truthy service again returns the same instance and changes nothing |
| Locators.ResolveAllIsEvalList | api/app/libs/core/container/ServiceLocator.ts:23-27 | `resolveAll` resolves exactly the supported keys, untagged, in their order |
| Locators.ResolveAllOfCached | api/app/libs/core/container/ServiceLocator.ts:23-27 | with every supported key cached, `resolveAll` yields one value per key, each the one `resolve` returns, and changes nothing |
| Locators.ResolveAllFrom | api/app/libs/core/container/ServiceLocator.ts:23-27 | `resolveAll` over a list of keys: `ResolveAllIsEvalList` and `ResolveAllOfCached` characterize it |
| Locators.ServiceLocator.constructor | api/app/libs/core/container/TaggedServiceLocator.ts:5-7 | a locator starts unbound with its tag or filter fixed |
| Locators.ServiceLocator.SetContainer | api/app/libs/core/container/ServiceLocator.ts:6-12 | binds once; a second assignment fails and keeps the first binding |
| Locators.ServiceLocator.Resolve | api/app/libs/core/container/ServiceLocator.ts:16-21 | the new state and result are exactly those of `LocatorResolve` over the supported keys, which a filtered locator gets from `filterFactories` with its filter and a tagged one from `getTaggedFactories` with its tag (`SupportedKeys`, read through `ServiceLocator.Supported`); fails when unbound |
| Locators.ServiceLocator.ResolveAll | api/app/libs/core/container/ServiceLocator.ts:23-27 | the new state and result are exactly those of `ResolveAllFrom` over the supported keys (`ServiceLocator.Supported`); fails when unbound |
| Plugins.BootOncePerPlugin | api/app/libs/core/plugins/PluginLoader.ts:16-27 | every loaded plugin is booted exactly once, with its own namespace |
| Plugins.ConfigFor | api/app/libs/core/plugins/PluginLoader.ts:19 | `appConfig[ns] \|\| {}`: the application's entry for the namespace, or `{}`; `PluginLoader.Boot` passes it to every call |
| Plugins.PluginLoader.constructor | api/app/libs/core/plugins/PluginLoader.ts:6 | no plugins are loaded at first |
| Plugins.PluginLoader.LoadPlugin | api/app/libs/core/plugins/PluginLoader.ts:8-14 | a taken namespace fails and changes nothing; otherwise exactly that plugin is added, last in load order, under its namespace (`Namespace`: a missing or empty one falls back to the plugin's default) |
| Plugins.PluginLoader.Boot | api/app/libs/core/plugins/PluginLoader.ts:16-27 | the calls are one per loaded namespace, in load order (`BootCalls`), each with the plugin's default configuration merged with the application's entry for its namespace, or `{}` (`CallFor`) |

## Left out

- Concurrency: `await` is a sequential call, and `Promise.all` resolves its list from left to right. Interleavings of concurrent resolves of the same key are not modelled. On a failure the sequential reading loses two things: the source has already started every later resolve of the list, and those still build and cache their values, while `EvalList` stops at the first failure; and the source reports whichever rejection comes first in time, while `EvalList` reports the first in list order.
- The body of `filterFactories` and `getTaggedFactories`: these are not part of this model. The locators take them as functions of the registered factories.
- `pauseFor`, aliases and other container features outside the listed files are not part of this model.
- `deepmerge` with an array-replacing merge is a function parameter of `boot`. The merge options are not modelled.
- `console.warn`: `MissingPositions` computes which positions are warned about. No output is modelled.
- The plugins' `registerServices`: `boot` returns the calls instead of making them.
- `Math.random()` and `Symbol()`: a nonce string and a counter stand in for them.
- `Reflect.getOwnMetadata` and `defineMetadata`: these are an explicit side table (`MetadataStore`), passed to `resolve` as a value.
- ContainerFactory.ts:92 sorts the metadata array in place, which reorders the stored list. The model sorts a copy and leaves the stored list unchanged. This is observable only through later reads of the same metadata, which always sort again.
- The `tags` option of the factory layer is a list of tag strings in the model, as its callers and tests pass it (api/app/libs/core/container/TaggedServiceLocator.spec.ts:9). ContainerFactory.ts:11-25 declares it as `Tags`, an object of tag names to values (Container.ts:4). Spreading such an object at ContainerFactory.ts:88, 151 and 177 would throw, because a plain object is not iterable. That path is not modelled.
- `appConfig[ns] || {}`: only a present or absent entry is modelled; a present falsy entry is not.
- Recursion depth: `fuel` bounds nested builds. A build nested deeper fails with `StackOverflow`; no finite fuel models an unbounded JavaScript stack. `StackOverflow` stands for the engine's `RangeError` where `resolve` runs before the builder's first `await` (ContainerFactory.ts:93 and 171, ContainerDecoratorsBuilder.ts:70), and for a build that never settles in the injectable builder, which awaits `dependenciesGetter` (ContainerDecoratorsBuilder.ts:121) before resolving.
- BuildSteps.Put: on an array the model neither updates `length` when an index at or past it is assigned nor keeps new indices ahead of `length` in key order, as JavaScript does; the model appends the key after `length` and leaves `length` unchanged. Nothing in the model reads an array's `length` value or its key order after an injection.
- Cache keys: `values[type]` is a plain object (Container.ts:50, 54, 102). A tags key such as `__proto__` (from tags `{_proto: "_"}`) or `__defineGetter__` names a truthy `Object.prototype` member, which the source returns as a cache hit without building; the model's `Cached` sees only stored entries, reads `Undefined` and builds.
- Resolution.BuildValue: its own contract only says that the factories never change; what it does to the cache is stated by `BuildValueWiresStoredValue` and `BuildValueKeepsTruthy`. A wirer that fails leaves the builder's value in the cache, as the code does (Container.ts:102-104). The model does not promise that a failed build leaves no value behind.
- `toInteger` accepts `"NaN"`, as the code does. The placement loop then sets no element for that key. This is modelled, not corrected.
- Fields assigned to arrays and functions are not tracked. Only objects on the heap record fields.
- A getDependencies function of the injectable builder returning an object reference or a function is treated as not an object: the build fails before any injection. The properties of such values are not tracked. A primitive result (undefined, null, a boolean, a number or a string) is modelled, including the resolve of the first injected key that comes before the failure.
- Numbers are unbounded integers, not IEEE-754 doubles. `String(n)` and `parseInt` agree with JavaScript on integers a double holds exactly and that are below 10^21; JavaScript rounds larger integers and prints numbers from 10^21 on in exponent notation. Numbers that are not integers, such as a tag value of 1.5, cannot be represented.
- Strings.DigitsParse: states its round trip for every natural number. In JavaScript it holds only for integers a double holds exactly.
- Strings.ParseIntOfDigits: `parseInt(String(n)) == n` holds in JavaScript only for integers a double holds exactly. For example, `parseInt("9007199254740993")` is 9007199254740992.
- Strings.ParseIntOfMinusDigits: the same bound applies to negative integers.
- Strings.ParseIntOfDecimalString: the round trip holds in JavaScript only for integers a double holds exactly, and below 10^21.
- BuildSteps.ToIntegerCharacterization: the model accepts the decimal string of every integer. JavaScript also rejects those a double does not hold exactly, such as `"9007199254740993"`, and every one from 10^21 on, such as `"100000000000000000000000"`.
- BuildSteps.PlaceFailsOnBadKey: a key that is the decimal string of an integer too large for a double is a bad key in JavaScript but not in the model. Such a key is never an array index, so `Place` sets no element for it in either case.
- Strings.StrLt orders strings by Unicode code point, while `sort()` compares UTF-16 code units. For tag names with characters outside the Basic Multilingual Plane, the tags key can join the names in a different order than JavaScript does. Two tags objects still get the same key exactly when they have the same properties, so matching is unaffected. The same holds for string indices: `InjectIntoPrimitive` tests `index < |v.s|` in code points, while the source's `providedDeps[index]` counts UTF-16 units, so for the string "😀" at index 1 the source raises the duplicate-injection error and the model `NotAnObject`.
- ContainerFactory.ts and ContainerBuilder.ts import `FactoryName` from Container.ts, which does not export it in this revision of the files. The model takes a factory name to be what `isFactoryName` accepts (ContainerDecoratorsBuilder.ts:35-37): a string, a number, a symbol or a function.

## Findings

| source | as written | input that shows it | evidently intended | confidence | as-written member | corrected member |
|---|---|---|---|---|---|---|
| api/app/libs/core/container/ContainerFactory.ts:177 | `service`, `provider` and `injectable` pass the tag list `[...tags, ...autoTags]` as the container's `tags` object; `Reflect.ownKeys` of an array includes `length`, so even `[]` gets the tags key `_length_0` | `@service() class A {}` then `container.resolve(A)`: no entry has the untagged key, so it throws | the tag list is stored as labels and the tags object stays empty, so the class is found by an untagged `resolve` | not executed | FactoryLayer.AsWrittenUntaggedUnaffected | FactoryLayer.LabelledResolvableUntagged |
| api/app/libs/core/container/ContainerDecoratorsBuilder.ts:112 | `service` and `injectable` default `tags` to `[]`, an array, which the container keys as `_length_0` | `@injectable() class A {}` then `container.resolve(A)`: throws for lack of an untagged entry | the default is `{}`, the container's own default, so the class is found untagged | not executed | BuilderLayer.DefaultTagsAsWritten | BuilderLayer.DefaultTagsResolvable |
