/** The registry of `Container`: factory entries per key, the recipes their
    builders and wirers follow, `resolveFactory`, and what `checkSanity` checks. */
module Registry {
  import opened Common
  import opened Strings
  import opened TagsKey

  /** `resolve(key, tags)` as a builder, wirer or getDependencies function calls it. */
  datatype Request = Request(key: Key, tags: Tags)

  /** An element of a list a getDependencies function returns: a literal or `await resolve(...)`. */
  datatype DepExpr = Lit(v: Value) | Dep(req: Request)

  /** A getDependencies function given the resolve capability. */
  datatype DepsFn =
    | ReturnsList(items: seq<DepExpr>)                 // `async (resolve) => [e1, e2, ...]`
    | ReturnsObject(props: seq<(string, DepExpr)>)     // `async (resolve) => ({0: e1, ...})`
    | ReturnsValue(v: Value)                           // returns some other value
    | Throws                                           // throws (a class called without `new`)

  /** One `@inject(key)` on parameter `index`. */
  datatype Injection = Injection(index: nat, key: Key)

  /** The metadata key a decorator set stores its injections under. */
  datatype MetaKey = MString(s: string) | MSymbol(sym: nat)

  /** A metadata slot: (metadata key, target class, property key or none for the constructor). */
  datatype Slot = Slot(metaKey: MetaKey, target: nat, property: Option<string>)

  /** The reflection metadata store, as an explicit side table. */
  type Metadata = map<Slot, seq<Injection>>

  /** What a factory function does when the container calls it with `resolve`. */
  datatype Builder =
    | Const(v: Value)                                    // `() => v`, as `Container.value` registers
    | ServiceNew(klass: nat, dependsOn: seq<Key>)        // resolve each key, then `new Klass(...deps)`
    | ProviderNew(klass: nat, getDeps: DepsFn)           // array check, then `new Klass(...deps)`
    | GetterNew(klass: nat, getDeps: DepsFn)             // `new Klass(...(await getDependencies(resolve)))`
    | InjectableNew(klass: nat, metaKey: MetaKey)        // injections sorted by index, resolved in order
    | PositionalNew(klass: nat, metaKey: MetaKey, getDeps: DepsFn) // injections placed by position

  /** A decorator function: resolve each request and assign it to a field of the value. */
  datatype Wirer = Wirer(assignments: seq<(string, Request)>)

  /** The options `container.factory(key, options)` is given. */
  datatype FactoryOptions = FactoryOptions(builder: Builder, wirer: Option<Wirer>, labels: seq<string>, tags: Tags)

  /** A registered entry: the options plus the canonical tags key. */
  datatype Entry = Entry(builder: Builder, wirer: Option<Wirer>, labels: seq<string>, tags: Tags, tagsKey: string)

  type Registry = map<Key, seq<Entry>>

  /** The entry `register` stores for `options`. */
  function MakeEntry(options: FactoryOptions): (e: Entry)
    ensures e.tagsKey == BuildTagsKey(options.tags)
    ensures e.builder == options.builder && e.wirer == options.wirer
    ensures e.labels == options.labels && e.tags == options.tags
  {
    Entry(options.builder, options.wirer, options.labels, options.tags, BuildTagsKey(options.tags))
  }

  /** `this.factories.get(type) || []`. */
  function EntriesOf(r: Registry, k: Key): seq<Entry> {
    if k in r then r[k] else []
  }

  /** `typeFactories.filter(fo => fo.tagsKey === tagsKey)`. */
  function Matching(es: seq<Entry>, tk: string): (m: seq<Entry>)
    ensures |m| <= |es|
  {
    if |es| == 0 then []
    else (if es[0].tagsKey == tk then [es[0]] else []) + Matching(es[1..], tk)
  }

  lemma {:induction false} MatchingNone(es: seq<Entry>, tk: string)
    ensures |Matching(es, tk)| == 0 <==> forall i :: 0 <= i < |es| ==> es[i].tagsKey != tk
  {
    if |es| > 0 {
      MatchingNone(es[1..], tk);
      if es[0].tagsKey != tk {
        assert forall i :: 1 <= i < |es| ==> es[i] == es[1..][i - 1];
      }
    }
  }

  lemma {:induction false} MatchingMany(es: seq<Entry>, tk: string)
    ensures |Matching(es, tk)| >= 2 <==>
      exists i, j :: 0 <= i < j < |es| && es[i].tagsKey == tk && es[j].tagsKey == tk
  {
    if |es| > 0 {
      var t := es[1..];
      MatchingMany(t, tk);
      MatchingNone(t, tk);
      if |Matching(es, tk)| >= 2 {
        if es[0].tagsKey == tk {
          var j :| 0 <= j < |t| && t[j].tagsKey == tk;
          assert es[0].tagsKey == tk && es[j + 1].tagsKey == tk;
        } else {
          var i, j :| 0 <= i < j < |t| && t[i].tagsKey == tk && t[j].tagsKey == tk;
          assert es[i + 1].tagsKey == tk && es[j + 1].tagsKey == tk;
        }
      }
      if exists i, j :: 0 <= i < j < |es| && es[i].tagsKey == tk && es[j].tagsKey == tk {
        var i, j :| 0 <= i < j < |es| && es[i].tagsKey == tk && es[j].tagsKey == tk;
        if i == 0 {
          assert t[j - 1].tagsKey == tk;
        } else {
          assert t[i - 1].tagsKey == tk && t[j - 1].tagsKey == tk;
        }
      }
    }
  }

  /** `e` is the entry at the one position of `es` whose tags key is `tk`. */
  predicate UniqueMatch(es: seq<Entry>, tk: string, e: Entry) {
    exists i :: 0 <= i < |es| && es[i] == e && es[i].tagsKey == tk &&
      (forall j :: 0 <= j < |es| && es[j].tagsKey == tk ==> j == i)
  }

  lemma {:induction false} MatchingOne(es: seq<Entry>, tk: string)
    requires |Matching(es, tk)| == 1
    ensures UniqueMatch(es, tk, Matching(es, tk)[0])
  {
    var t := es[1..];
    if es[0].tagsKey == tk {
      MatchingNone(t, tk);
      assert forall j :: 1 <= j < |es| ==> es[j] == t[j - 1];
    } else {
      MatchingOne(t, tk);
      var i :| 0 <= i < |t| && t[i] == Matching(t, tk)[0] && t[i].tagsKey == tk
        && forall j :: 0 <= j < |t| && t[j].tagsKey == tk ==> j == i;
      assert es[i + 1] == Matching(es, tk)[0];
      forall j | 0 <= j < |es| && es[j].tagsKey == tk ensures j == i + 1 {
        assert j != 0;
        assert t[j - 1].tagsKey == tk;
      }
    }
  }

  /** `resolveFactory(type, tags)`: the one entry of `type` whose tags key is that
      of `tags`, failing on none or several. */
  function ResolveFactory(r: Registry, req: Request): (res: Result<Entry>)
    ensures res.Ok? ==> res.value.tagsKey == BuildTagsKey(req.tags)
  {
    var tk := BuildTagsKey(req.tags);
    var matched := Matching(EntriesOf(r, req.key), tk);
    if |matched| == 0 then Err(NoMatchingFactory)
    else if |matched| > 1 then Err(AmbiguousFactories)
    else
      assert matched[0] in matched;
      MatchingKeys(EntriesOf(r, req.key), tk);
      Ok(matched[0])
  }

  lemma {:induction false} MatchingKeys(es: seq<Entry>, tk: string)
    ensures forall e :: e in Matching(es, tk) ==> e.tagsKey == tk
  {
    if |es| > 0 {
      MatchingKeys(es[1..], tk);
    }
  }

  /** The entry found is the one entry of the key whose tags key is that of the
      request; no fallback to other entries; failure on none or several. */
  lemma ResolveFactoryCorrect(r: Registry, req: Request)
    ensures var res := ResolveFactory(r, req);
      && (res.Ok? || res == Err(NoMatchingFactory) || res == Err(AmbiguousFactories))
      && (res.Ok? ==> UniqueMatch(EntriesOf(r, req.key), BuildTagsKey(req.tags), res.value))
    ensures ResolveFactory(r, req) == Err(NoMatchingFactory) <==>
      forall i :: 0 <= i < |EntriesOf(r, req.key)| ==> EntriesOf(r, req.key)[i].tagsKey != BuildTagsKey(req.tags)
    ensures ResolveFactory(r, req) == Err(AmbiguousFactories) <==>
      exists i, j :: 0 <= i < j < |EntriesOf(r, req.key)|
        && EntriesOf(r, req.key)[i].tagsKey == BuildTagsKey(req.tags)
        && EntriesOf(r, req.key)[j].tagsKey == BuildTagsKey(req.tags)
  {
    var tk := BuildTagsKey(req.tags);
    var es := EntriesOf(r, req.key);
    MatchingNone(es, tk);
    MatchingMany(es, tk);
    if |Matching(es, tk)| == 1 {
      MatchingOne(es, tk);
    }
  }

  // ---------------------------------------------------------------------------
  // What checkSanity checks

  predicate HasDuplicate<T(==)>(s: seq<T>) {
    exists i, j :: 0 <= i < j < |s| && s[i] == s[j]
  }

  /** No key has two entries with the same tags key. */
  predicate Sane(r: Registry) {
    forall k :: k in r ==> !HasDuplicate(TagsKeys(r[k]))
  }

  /** `factories.map(fo => fo.tagsKey)`. */
  function TagsKeys(es: seq<Entry>): (s: seq<string>)
    ensures |s| == |es| && forall i :: 0 <= i < |es| ==> s[i] == es[i].tagsKey
  {
    seq(|es|, i requires 0 <= i < |es| => es[i].tagsKey)
  }

  predicate SortedStrings(s: seq<string>) {
    forall i, j :: 0 <= i < j < |s| ==> StrLe(s[i], s[j])
  }

  function InsertString(x: string, s: seq<string>): (r: seq<string>)
    ensures multiset(r) == multiset(s) + multiset{x}
  {
    if |s| == 0 then [x]
    else if StrLe(x, s[0]) then
      assert s == [s[0]] + s[1..];
      [x] + s
    else
      assert s == [s[0]] + s[1..];
      [s[0]] + InsertString(x, s[1..])
  }

  lemma {:induction false} InsertStringSorted(x: string, s: seq<string>)
    requires SortedStrings(s)
    ensures SortedStrings(InsertString(x, s))
  {
    if |s| == 0 {
    } else if StrLe(x, s[0]) {
      forall j | 0 < j < |s| ensures StrLe(x, s[j]) {
        if x != s[0] && s[0] != s[j] { StrLtTransitive(x, s[0], s[j]); }
      }
    } else {
      var rest := InsertString(x, s[1..]);
      InsertStringSorted(x, s[1..]);
      assert s == [s[0]] + s[1..];
      StrLtTotal(x, s[0]);
      forall j | 0 <= j < |rest| ensures StrLe(s[0], rest[j]) {
        assert rest[j] in multiset(rest);
        assert rest[j] == x || rest[j] in s[1..];
      }
      ConsSortedStrings(s[0], rest);
    }
  }

  lemma ConsSortedStrings(x: string, s: seq<string>)
    requires SortedStrings(s) && forall j :: 0 <= j < |s| ==> StrLe(x, s[j])
    ensures SortedStrings([x] + s)
  {
    var r := [x] + s;
    forall i, j | 0 <= i < j < |r| ensures StrLe(r[i], r[j]) {
      if i > 0 { assert r[i] == s[i - 1] && r[j] == s[j - 1]; }
      else { assert r[j] == s[j - 1]; }
    }
  }

  /** `Array.prototype.sort()` on strings, as an insertion sort. */
  function SortStrings(s: seq<string>): (r: seq<string>)
    ensures multiset(r) == multiset(s)
  {
    if |s| == 0 then []
    else
      assert s == [s[0]] + s[1..];
      InsertString(s[0], SortStrings(s[1..]))
  }

  lemma {:induction false} SortStringsSorted(s: seq<string>)
    ensures SortedStrings(SortStrings(s))
  {
    if |s| > 0 {
      SortStringsSorted(s[1..]);
      InsertStringSorted(s[0], SortStrings(s[1..]));
    }
  }

  predicate HasAdjacentEqual(s: seq<string>) {
    exists i :: 0 <= i < |s| - 1 && s[i] == s[i + 1]
  }

  /** In a sorted list, a repeated element shows up as two equal neighbours. */
  lemma SortedDuplicateIsAdjacent(s: seq<string>)
    requires SortedStrings(s)
    ensures HasAdjacentEqual(s) <==> HasDuplicate(s)
  {
    if HasDuplicate(s) {
      var i, j :| 0 <= i < j < |s| && s[i] == s[j];
      assert StrLe(s[i], s[i + 1]) && StrLe(s[i + 1], s[j]);
      if s[i] != s[i + 1] {
        StrLtAsymmetric(s[i], s[i + 1]);
      }
      assert s[i] == s[i + 1];
    }
    if HasAdjacentEqual(s) {
      var i :| 0 <= i < |s| - 1 && s[i] == s[i + 1];
      assert s[i] == s[i + 1];
    }
  }

  /** A duplicate is an element occurring at least twice, whatever the order. */
  lemma {:induction false} DuplicateIsRepeated<T>(s: seq<T>)
    ensures HasDuplicate(s) <==> exists x :: multiset(s)[x] >= 2
  {
    if |s| > 0 {
      var t := s[1..];
      assert s == [s[0]] + t;
      DuplicateIsRepeated(t);
      if HasDuplicate(s) {
        var i, j :| 0 <= i < j < |s| && s[i] == s[j];
        if i == 0 {
          assert t[j - 1] == s[0];
          assert multiset(s)[s[0]] >= 2;
        } else {
          assert t[i - 1] == t[j - 1];
          assert HasDuplicate(t);
          var x :| multiset(t)[x] >= 2;
          assert multiset(s)[x] >= 2;
        }
      }
      if exists x :: multiset(s)[x] >= 2 {
        var x :| multiset(s)[x] >= 2;
        if x == s[0] {
          assert x in t;
          var j :| 0 <= j < |t| && t[j] == x;
          assert s[0] == s[j + 1];
        } else {
          assert multiset(t)[x] >= 2;
          var i, j :| 0 <= i < j < |t| && t[i] == t[j];
          assert s[i + 1] == s[j + 1];
        }
      }
    }
  }

  /** What checkSanity concludes: sorting the tags keys and comparing neighbours
      finds a duplicate exactly when two entries share a tags key. */
  lemma SanityByAdjacentKeys(es: seq<Entry>)
    ensures HasAdjacentEqual(SortStrings(TagsKeys(es))) <==>
      exists i, j :: 0 <= i < j < |es| && es[i].tagsKey == es[j].tagsKey
  {
    var keys := TagsKeys(es);
    var sorted := SortStrings(keys);
    SortStringsSorted(keys);
    SortedDuplicateIsAdjacent(sorted);
    DuplicateIsRepeated(sorted);
    DuplicateIsRepeated(keys);
    if HasDuplicate(keys) {
      var i, j :| 0 <= i < j < |keys| && keys[i] == keys[j];
      assert es[i].tagsKey == es[j].tagsKey;
    }
    if exists i, j :: 0 <= i < j < |es| && es[i].tagsKey == es[j].tagsKey {
      var i, j :| 0 <= i < j < |es| && es[i].tagsKey == es[j].tagsKey;
      assert keys[i] == keys[j];
    }
  }

  // ---------------------------------------------------------------------------
  // register, and what resolveFactory then finds

  /** `register(type, options)`: the entry, with its tags key, at the end of the key's list. */
  function Registered(r: Registry, k: Key, options: FactoryOptions): Registry {
    r[k := EntriesOf(r, k) + [MakeEntry(options)]]
  }

  /** Registering appends exactly one entry to that key's list; other keys keep theirs. */
  lemma RegisteredAppendsOne(r: Registry, k: Key, options: FactoryOptions)
    ensures EntriesOf(Registered(r, k, options), k) == EntriesOf(r, k) + [MakeEntry(options)]
    ensures MakeEntry(options).tagsKey == BuildTagsKey(options.tags)
    ensures forall k' :: k' != k ==> EntriesOf(Registered(r, k, options), k') == EntriesOf(r, k')
    ensures Registered(r, k, options).Keys == r.Keys + {k}
  {
  }

  /** Every entry's tags key is that of its tags, and its tag names are distinct. */
  predicate WellKeyed(r: Registry) {
    forall k, i :: k in r && 0 <= i < |r[k]| ==> r[k][i].tagsKey == BuildTagsKey(r[k][i].tags) && DistinctNames(r[k][i].tags)
  }

  lemma RegisteredWellKeyed(r: Registry, k: Key, options: FactoryOptions)
    requires WellKeyed(r) && DistinctNames(options.tags)
    ensures WellKeyed(Registered(r, k, options))
  {
    var r': Registry := Registered(r, k, options);
    forall k': Key, i: int | k' in r' && 0 <= i < |r'[k']|
      ensures r'[k'][i].tagsKey == BuildTagsKey(r'[k'][i].tags) && DistinctNames(r'[k'][i].tags)
    {
      if k' == k && i < |EntriesOf(r, k)| {
        assert r'[k'][i] == r[k][i];
      }
    }
  }

  /** Matching is exact: an untagged request selects only an untagged entry, and a
      tagged request never selects an untagged one, whatever else is registered. */
  lemma UntaggedMatchesOnlyUntagged(r: Registry, req: Request)
    requires WellKeyed(r) && DistinctNames(req.tags)
    ensures ResolveFactory(r, req).Ok? ==> (ResolveFactory(r, req).value.tags == [] <==> req.tags == [])
  {
    if ResolveFactory(r, req).Ok? {
      ResolveFactoryCorrect(r, req);
      var e := ResolveFactory(r, req).value;
      var es := EntriesOf(r, req.key);
      var i :| 0 <= i < |es| && es[i] == e;
      BuildTagsKeyIsSortedConcatenation(req.tags);
      BuildTagsKeyIsSortedConcatenation(e.tags);
    }
  }

  lemma {:induction false} MatchingAppend(es: seq<Entry>, e: Entry, tk: string)
    ensures Matching(es + [e], tk) == Matching(es, tk) + (if e.tagsKey == tk then [e] else [])
  {
    var z := if e.tagsKey == tk then [e] else [];
    if |es| == 0 {
      assert es + [e] == [e];
      assert Matching([e], tk) == z + Matching([], tk);
    } else {
      var t := es + [e];
      assert t[0] == es[0] && t[1..] == es[1..] + [e];
      var h := if es[0].tagsKey == tk then [es[0]] else [];
      MatchingAppend(es[1..], e, tk);
      assert Matching(t, tk) == h + (Matching(es[1..], tk) + z);
      assert Matching(es, tk) == h + Matching(es[1..], tk);
      assert h + (Matching(es[1..], tk) + z) == (h + Matching(es[1..], tk)) + z;
    }
  }

  /** What a registration does to later lookups: a request for another key, or
      with another tags key, finds what it found before; a request with the new
      entry's key and tags key finds the new entry if it found nothing before, and
      is ambiguous otherwise. */
  lemma RegisteredResolveFactory(r: Registry, k: Key, options: FactoryOptions, req: Request)
    ensures req.key != k || MakeEntry(options).tagsKey != BuildTagsKey(req.tags) ==>
      ResolveFactory(Registered(r, k, options), req) == ResolveFactory(r, req)
    ensures req.key == k && MakeEntry(options).tagsKey == BuildTagsKey(req.tags) ==>
      ResolveFactory(Registered(r, k, options), req) ==
        (if ResolveFactory(r, req) == Err(NoMatchingFactory) then Ok(MakeEntry(options)) else Err(AmbiguousFactories))
  {
    if req.key == k {
      MatchingAppend(EntriesOf(r, k), MakeEntry(options), BuildTagsKey(req.tags));
    }
  }
}
