/** Properties of `resolve`: memoization of truthy values, the two-phase build
    that lets wirers close cycles, and how builders take their arguments. */
module ResolutionLemmas {
  import opened Common
  import opened Strings
  import opened TagsKey
  import opened Registry
  import opened BuildSteps
  import opened Resolution

  // ---------------------------------------------------------------------------
  // Memoization

  /** Once resolve has produced a truthy value, resolving the same request again
      returns it and changes nothing, however little fuel is left. */
  lemma ResolveMemoized(st: State, meta: Metadata, req: Request, fuel: nat, fuel': nat)
    requires Resolve(st, meta, req, fuel).res.Ok? && Truthy(Resolve(st, meta, req, fuel).res.value)
    ensures var r := Resolve(st, meta, req, fuel);
      Resolve(r.st, meta, req, fuel') == r
  {
    var r := Resolve(st, meta, req, fuel);
    assert ResolveFactory(r.st.factories, req) == ResolveFactory(st.factories, req);
  }

  /** Resolve succeeds without building anything exactly when the entry's cached
      value is truthy: a falsy cached value is never served from the cache. */
  lemma ServedFromCacheIffTruthy(st: State, meta: Metadata, req: Request)
    ensures Resolve(st, meta, req, 0).res.Ok? <==>
      ResolveFactory(st.factories, req).Ok? && Truthy(Cached(st.values, req.key, BuildTagsKey(req.tags)))
    ensures Resolve(st, meta, req, 0).res.Ok? ==> Resolve(st, meta, req, 0).st == st
  {
  }

  // ---------------------------------------------------------------------------
  // Arguments of builders whose dependencies are already cached

  /** A literal, or a request whose entry holds a truthy cached value. */
  predicate Ready(st: State, e: DepExpr) {
    e.Lit? || (ResolveFactory(st.factories, e.req).Ok? && Truthy(Cached(st.values, e.req.key, BuildTagsKey(e.req.tags))))
  }

  /** The value a ready expression evaluates to. */
  function Current(st: State, e: DepExpr): Value {
    if e.Lit? then e.v else Cached(st.values, e.req.key, BuildTagsKey(e.req.tags))
  }

  function CurrentAll(st: State, es: seq<DepExpr>): (vs: seq<Value>)
    ensures |vs| == |es| && forall j :: 0 <= j < |es| ==> vs[j] == Current(st, es[j])
  {
    seq(|es|, j requires 0 <= j < |es| => Current(st, es[j]))
  }

  lemma EvalReady(st: State, meta: Metadata, e: DepExpr, fuel: nat)
    requires Ready(st, e)
    ensures Eval(st, meta, e, fuel) == Out(st, Ok(Current(st, e)))
  {
    if e.Dep? {
      var entry := ResolveFactory(st.factories, e.req).value;
      assert entry.tagsKey == BuildTagsKey(e.req.tags);
    }
  }

  lemma CurrentAllCons(st: State, es: seq<DepExpr>, i: nat)
    requires i < |es|
    ensures CurrentAll(st, es[i..]) == [Current(st, es[i])] + CurrentAll(st, es[i + 1..])
  {
    var a := CurrentAll(st, es[i..]);
    var b := [Current(st, es[i])] + CurrentAll(st, es[i + 1..]);
    assert |a| == |b|;
    forall j | 0 <= j < |a| ensures a[j] == b[j] {
      if j > 0 { assert es[i..][j] == es[i + 1..][j - 1]; }
    }
  }

  /** Evaluating ready expressions changes nothing and yields their values in order. */
  lemma {:induction false} EvalListReady(st: State, meta: Metadata, es: seq<DepExpr>, i: nat, acc: seq<Value>, fuel: nat)
    requires i <= |es| && forall j :: i <= j < |es| ==> Ready(st, es[j])
    ensures EvalList(st, meta, es, i, acc, fuel) == Out(st, Ok(acc + CurrentAll(st, es[i..])))
    decreases |es| - i
  {
    if i < |es| {
      var acc' := acc + [Current(st, es[i])];
      EvalReady(st, meta, es[i], fuel);
      assert EvalList(st, meta, es, i, acc, fuel) == EvalList(st, meta, es, i + 1, acc', fuel);
      EvalListReady(st, meta, es, i + 1, acc', fuel);
      CurrentAllCons(st, es, i);
      assert acc' + CurrentAll(st, es[i + 1..]) == acc + CurrentAll(st, es[i..]);
    } else {
      assert CurrentAll(st, es[i..]) == [];
      assert acc + [] == acc;
    }
  }

  /** ContainerFactory's `service`: when every `dependsOn` key has a truthy untagged
      value, the new object's constructor arguments are those values in list order
      (none for an empty list), and nothing but the heap changes. */
  lemma ServiceArgumentsInOrder(st: State, meta: Metadata, klass: nat, deps: seq<Key>, fuel: nat)
    requires forall j :: 0 <= j < |deps| ==> Ready(st, Dep(Request(deps[j], [])))
    ensures var r := RunBuilder(st, meta, ServiceNew(klass, deps), fuel);
      var args := seq(|deps|, j requires 0 <= j < |deps| => Cached(st.values, deps[j], BuildTagsKey([])));
      r == Out(st.(heap := st.heap + [Obj(klass, args, map[])]), Ok(Ref(|st.heap|)))
  {
    var es := KeyRequests(deps);
    EvalListReady(st, meta, es, 0, [], fuel);
    assert es[0..] == es;
    var args := seq(|deps|, j requires 0 <= j < |deps| => Cached(st.values, deps[j], BuildTagsKey([])));
    assert [] + CurrentAll(st, es) == args;
  }

  lemma EvalInjectionsReady(st: State, meta: Metadata, ordered: seq<Injection>, fuel: nat)
    requires forall inj :: inj in ordered ==> Ready(st, Dep(Request(inj.key, [])))
    ensures var args := seq(|ordered|, j requires 0 <= j < |ordered| => Cached(st.values, ordered[j].key, BuildTagsKey([])));
      EvalList(st, meta, InjectionRequests(ordered), 0, [], fuel) == Out(st, Ok(args))
  {
    var es := InjectionRequests(ordered);
    forall j | 0 <= j < |es| ensures Ready(st, es[j]) {
      assert ordered[j] in ordered;
    }
    EvalListReady(st, meta, es, 0, [], fuel);
    assert es[0..] == es;
    var args := seq(|ordered|, j requires 0 <= j < |ordered| => Cached(st.values, ordered[j].key, BuildTagsKey([])));
    assert [] + CurrentAll(st, es) == args;
  }

  /** ContainerFactory's `injectable`: with every injected key cached, argument `j`
      is the value of the `j`-th injection in ascending index order. */
  lemma InjectableArgumentsByIndex(st: State, meta: Metadata, klass: nat, mk: MetaKey, fuel: nat)
    requires forall inj :: inj in Injections(meta, mk, klass) ==> Ready(st, Dep(Request(inj.key, [])))
    ensures var ordered := SortByIndex(Injections(meta, mk, klass));
      var args := seq(|ordered|, j requires 0 <= j < |ordered| => Cached(st.values, ordered[j].key, BuildTagsKey([])));
      && SortedByIndex(ordered) && multiset(ordered) == multiset(Injections(meta, mk, klass))
      && RunBuilder(st, meta, InjectableNew(klass, mk), fuel)
         == Out(st.(heap := st.heap + [Obj(klass, args, map[])]), Ok(Ref(|st.heap|)))
  {
    var injs := Injections(meta, mk, klass);
    var ordered := SortByIndex(injs);
    SortByIndexCorrect(injs);
    forall inj | inj in ordered ensures Ready(st, Dep(Request(inj.key, []))) {
      assert inj in multiset(ordered);
      assert inj in multiset(injs);
    }
    EvalInjectionsReady(st, meta, ordered, fuel);
  }

  /** ContainerFactory's `provider`: the build succeeds exactly when getDependencies
      returned an array; otherwise no object is constructed. */
  lemma ProviderRequiresArray(st: State, meta: Metadata, klass: nat, g: DepsFn, fuel: nat)
    ensures var d := CallDeps(st, meta, g, fuel);
      var r := RunBuilder(st, meta, ProviderNew(klass, g), fuel);
      && (r.res.Ok? <==> d.res.Ok? && d.res.value.RList?)
      && (r.res.Ok? ==> r.st.heap == d.st.heap + [Obj(klass, d.res.value.items, map[])])
      && (d.res.Ok? && !d.res.value.RList? ==> r == Out(d.st, Err(NotAnArray)))
  {
  }

  // ---------------------------------------------------------------------------
  // The injectable builder of the decorators builder never overrides getDependencies

  lemma {:induction false} InjectChecksFromHere(st: State, meta: Metadata, injs: seq<Injection>, i: nat, p: Props, fuel: nat)
    requires i <= |injs|
    requires Inject(st, meta, injs, i, p, fuel).res.Ok?
    ensures forall j :: i <= j < |injs| ==>
      !Truthy(Get(p, DecimalString(injs[j].index))) || exists j' :: i <= j' < j && injs[j'].index == injs[j].index
    decreases |injs| - i
  {
    if i < |injs| {
      var dep := Resolve(st, meta, Request(injs[i].key, []), fuel);
      var name := DecimalString(injs[i].index);
      assert dep.res.Ok? && !Truthy(Get(p, name));
      var p' := Put(p, name, dep.res.value);
      assert InjectOne(st, meta, injs[i], p, fuel) == Out(dep.st, Ok(p'));
      assert Inject(st, meta, injs, i, p, fuel) == Inject(dep.st, meta, injs, i + 1, p', fuel);
      InjectChecksFromHere(dep.st, meta, injs, i + 1, p', fuel);
      UnsuppliedBeforePut(injs, i, p, dep.res.value);
    }
  }

  /** A position left unsupplied after `Put` at position `i` was unsupplied before it. */
  lemma UnsuppliedBeforePut(injs: seq<Injection>, i: nat, p: Props, v: Value)
    requires i < |injs| && !Truthy(Get(p, DecimalString(injs[i].index)))
    requires forall j :: i + 1 <= j < |injs| ==>
      !Truthy(Get(Put(p, DecimalString(injs[i].index), v), DecimalString(injs[j].index)))
      || exists j' :: i + 1 <= j' < j && injs[j'].index == injs[j].index
    ensures forall j :: i <= j < |injs| ==>
      !Truthy(Get(p, DecimalString(injs[j].index))) || exists j' :: i <= j' < j && injs[j'].index == injs[j].index
  {
    var name := DecimalString(injs[i].index);
    forall j | i < j < |injs| && !(exists j' :: i <= j' < j && injs[j'].index == injs[j].index)
      ensures !Truthy(Get(p, DecimalString(injs[j].index)))
    {
      assert injs[j].index != injs[i].index;
      if DecimalString(injs[j].index) == name { DecimalStringInjective(injs[j].index, injs[i].index); }
      assert !Truthy(Get(Put(p, name, v), DecimalString(injs[j].index)));
    }
  }

  lemma {:induction false} FirstOccurrenceUnsupplied(injs: seq<Injection>, p: Props, j: nat)
    requires j < |injs|
    requires forall j :: 0 <= j < |injs| ==>
      !Truthy(Get(p, DecimalString(injs[j].index))) || exists j' :: 0 <= j' < j && injs[j'].index == injs[j].index
    ensures !Truthy(Get(p, DecimalString(injs[j].index)))
    decreases j
  {
    if Truthy(Get(p, DecimalString(injs[j].index))) {
      var j' :| 0 <= j' < j && injs[j'].index == injs[j].index;
      FirstOccurrenceUnsupplied(injs, p, j');
    }
  }

  /** A successful build never replaces a truthy value getDependencies supplied at
      an injected position: every injected position was unsupplied. */
  lemma InjectNeverOverrides(st: State, meta: Metadata, injs: seq<Injection>, p: Props, fuel: nat)
    requires Inject(st, meta, injs, 0, p, fuel).res.Ok?
    ensures forall j :: 0 <= j < |injs| ==> !Truthy(Get(p, DecimalString(injs[j].index)))
  {
    InjectChecksFromHere(st, meta, injs, 0, p, fuel);
    forall j | 0 <= j < |injs| ensures !Truthy(Get(p, DecimalString(injs[j].index))) {
      FirstOccurrenceUnsupplied(injs, p, j);
    }
  }

  /** When a supplied position is truthy and every resolve succeeds, the build fails
      with the duplicate-injection error at the first such injection. */
  lemma InjectRejectsSupplied(st: State, meta: Metadata, inj: Injection, p: Props, fuel: nat)
    requires Resolve(st, meta, Request(inj.key, []), fuel).res.Ok?
    requires Truthy(Get(p, DecimalString(inj.index)))
    ensures Inject(st, meta, [inj], 0, p, fuel).res == Err(DuplicateInjection)
  {
  }

  /** No position is named `length`: a decimal string starts with a digit or `-`. */
  lemma DecimalStringIsNotLength(n: int)
    ensures DecimalString(n) != "length"
  {
    if n >= 0 {
      DigitsAreDigits(n);
      var s := DecimalString(n);
      assert s == Digits(n);
      assert DigitValue(s[0], 10).Some?;
      assert s[0] != 'l';
    } else {
      assert DecimalString(n)[0] == '-';
    }
  }

  lemma {:induction false} ArrayPropsLength(xs: seq<Value>, i: nat)
    requires i <= |xs|
    ensures Get(ArrayProps(xs)[i..], "length") == Num(|xs|)
    decreases |xs| - i
  {
    var o := ArrayProps(xs);
    if i < |xs| {
      DecimalStringIsNotLength(i);
      assert o[i..][0] == (DecimalString(i), xs[i]);
      assert o[i..][1..] == o[i + 1..];
      ArrayPropsLength(xs, i + 1);
    } else {
      assert o[i..] == [("length", Num(|xs|))];
    }
  }

  /** The injections only assign positions, so an array's `length` is still an
      own key afterwards (JavaScript may grow its value; it is never removed). */
  lemma {:induction false} InjectKeepsLength(st: State, meta: Metadata, injs: seq<Injection>, i: nat, p: Props, fuel: nat)
    requires i <= |injs|
    requires Get(p, "length") != Undefined
    requires Inject(st, meta, injs, i, p, fuel).res.Ok?
    ensures Get(Inject(st, meta, injs, i, p, fuel).res.value, "length") != Undefined
    decreases |injs| - i
  {
    if i < |injs| {
      var x := InjectOne(st, meta, injs[i], p, fuel);
      DecimalStringIsNotLength(injs[i].index);
      assert Get(x.res.value, "length") != Undefined;
      InjectKeepsLength(x.st, meta, injs, i + 1, x.res.value, fuel);
    }
  }

  /** Whatever is injected into an array's properties, placing them fails. */
  lemma ArrayPlaceFails(st: State, meta: Metadata, injs: seq<Injection>, xs: seq<Value>, fuel: nat)
    requires Inject(st, meta, injs, 0, ArrayProps(xs), fuel).res.Ok?
    ensures Place(Inject(st, meta, injs, 0, ArrayProps(xs), fuel).res.value).Err?
  {
    var o := Inject(st, meta, injs, 0, ArrayProps(xs), fuel).res.value;
    ArrayPropsLength(xs, 0);
    assert ArrayProps(xs)[0..] == ArrayProps(xs);
    InjectKeepsLength(st, meta, injs, 0, ArrayProps(xs), fuel);
    GetNamesKey(o, "length");
    var j :| 0 <= j < |o| && o[j].0 == "length";
    ToIntegerRejectsLength();
    PlaceFailsOnBadKey(o);
  }

  /** A positional build that succeeds went through the injections and placed
      their result. */
  lemma PositionalSucceedsThroughPlace(st: State, meta: Metadata, klass: nat, mk: MetaKey, g: DepsFn, fuel: nat)
    requires RunBuilder(st, meta, PositionalNew(klass, mk, g), fuel).res.Ok?
    ensures var d := CallDeps(st, meta, g, fuel);
      && d.res.Ok? && ProvidedProps(d.res.value).Ok?
      && var p := Inject(d.st, meta, Injections(meta, mk, klass), 0, ProvidedProps(d.res.value).value, fuel);
         p.res.Ok? && Place(p.res.value).Ok?
  {
  }

  /** The injectable builder of the decorators builder never builds from an array
      that getDependencies returned, although its declared return type admits
      one: `Reflect.ownKeys` of an array ends with `length`, which `toInteger`
      rejects. */
  lemma PositionalArrayFails(st: State, meta: Metadata, klass: nat, mk: MetaKey, g: DepsFn, fuel: nat)
    requires CallDeps(st, meta, g, fuel).res.Ok? && CallDeps(st, meta, g, fuel).res.value.RList?
    ensures RunBuilder(st, meta, PositionalNew(klass, mk, g), fuel).res.Err?
  {
    if RunBuilder(st, meta, PositionalNew(klass, mk, g), fuel).res.Ok? {
      PositionalSucceedsThroughPlace(st, meta, klass, mk, g, fuel);
      var d := CallDeps(st, meta, g, fuel);
      ArrayPlaceFails(d.st, meta, Injections(meta, mk, klass), d.res.value.items, fuel);
      assert false;
    }
  }

  /** On a primitive getDependencies result the injectable builder constructs
      nothing: it fails at once when there is nothing to inject, and otherwise
      after resolving the first injected key, with that resolve's error, the
      duplicate-injection error when the value is a string with a character at
      the injected position, or the error of a property access on a primitive. */
  lemma PositionalPrimitiveFails(st: State, meta: Metadata, klass: nat, mk: MetaKey, v: Value, fuel: nat)
    requires Primitive(v)
    ensures var injs := Injections(meta, mk, klass);
      var r := RunBuilder(st, meta, PositionalNew(klass, mk, ReturnsValue(v)), fuel);
      && (|injs| == 0 ==> r == Out(st, Err(NotAnObject)))
      && (|injs| > 0 ==>
            var dep := Resolve(st, meta, Request(injs[0].key, []), fuel);
            r.st == dep.st &&
            r.res == Err(if dep.res.Err? then dep.res.error
                         else if v.Str? && injs[0].index < |v.s| then DuplicateInjection
                         else NotAnObject))
  {
  }

  // ---------------------------------------------------------------------------
  // Two-phase build: wirers that resolve each other

  /** Two untagged entries: `a` builds `new Ka()` and wires field `fa` to `b`;
      `b` builds `new Kb()` and wires field `fb` to `a`. */
  function CycleFactories(a: Key, b: Key, ka: nat, kb: nat, fa: string, fb: string): Registry {
    map[a := [Entry(ServiceNew(ka, []), Some(Wirer([(fa, Request(b, []))])), [], [], "")],
        b := [Entry(ServiceNew(kb, []), Some(Wirer([(fb, Request(a, []))])), [], [], "")]]
  }

  lemma UntaggedKeyIsEmpty()
    ensures BuildTagsKey([]) == ""
  {
    assert SortByName([]) == [];
  }

  lemma CycleFactoryFound(r: Registry, k: Key, e: Entry)
    requires k in r && r[k] == [e] && e.tagsKey == ""
    ensures ResolveFactory(r, Request(k, [])) == Ok(e)
  {
    UntaggedKeyIsEmpty();
    MatchingOne([e], "");
    assert Matching([e], "") == [e] by {
      MatchingMany([e], "");
      MatchingNone([e], "");
    }
  }

  /** `b`'s wirer, run on the new `Kb` object, finds `a` in the cache. */
  lemma WireBackToCached(a: Key, b: Key, ka: nat, kb: nat, fa: string, fb: string, meta: Metadata, fuel: nat)
    requires a != b
    ensures var fs := CycleFactories(a, b, ka, kb, fa, fb);
      var st2 := State(fs, map[a := map["" := Ref(0)], b := map["" := Ref(1)]], [Obj(ka, [], map[]), Obj(kb, [], map[])]);
      Wire(st2, meta, Ref(1), [(fb, Request(a, []))], 0, fuel)
      == Out(st2.(heap := [Obj(ka, [], map[]), Obj(kb, [], map[fb := Ref(0)])]), Ok(()))
  {
    var fs := CycleFactories(a, b, ka, kb, fa, fb);
    UntaggedKeyIsEmpty();
    CycleFactoryFound(fs, a, fs[a][0]);
    var st2 := State(fs, map[a := map["" := Ref(0)], b := map["" := Ref(1)]], [Obj(ka, [], map[]), Obj(kb, [], map[])]);
    assert Cached(st2.values, a, "") == Ref(0);
    assert Resolve(st2, meta, Request(a, []), fuel) == Out(st2, Ok(Ref(0)));
    var st3 := st2.(heap := [Obj(ka, [], map[]), Obj(kb, [], map[fb := Ref(0)])]);
    assert SetField(st2.heap, 1, fb, Ref(0)) == st3.heap;
    assert Wire(st3, meta, Ref(1), [(fb, Request(a, []))], 1, fuel) == Out(st3, Ok(()));
  }

  /** Building `b` while `a` is cached: `new Kb()` is stored, then wired. */
  lemma BuildSecond(a: Key, b: Key, ka: nat, kb: nat, fa: string, fb: string, meta: Metadata, fuel: nat)
    requires a != b
    ensures var fs := CycleFactories(a, b, ka, kb, fa, fb);
      var st1 := State(fs, map[a := map["" := Ref(0)]], [Obj(ka, [], map[])]);
      BuildValue(st1, meta, b, fs[b][0], fuel)
      == Out(State(fs, map[a := map["" := Ref(0)], b := map["" := Ref(1)]],
                   [Obj(ka, [], map[]), Obj(kb, [], map[fb := Ref(0)])]), Ok(()))
  {
    var fs := CycleFactories(a, b, ka, kb, fa, fb);
    var eb: Entry := fs[b][0];
    var st1 := State(fs, map[a := map["" := Ref(0)]], [Obj(ka, [], map[])]);
    var st1' := st1.(values := st1.values[b := map[]]);
    assert RunBuilder(st1', meta, eb.builder, fuel)
      == Out(st1'.(heap := [Obj(ka, [], map[]), Obj(kb, [], map[])]), Ok(Ref(1)));
    var st2 := State(fs, map[a := map["" := Ref(0)], b := map["" := Ref(1)]], [Obj(ka, [], map[]), Obj(kb, [], map[])]);
    assert Store(st1'.values, b, "", Ref(1)) == st2.values;
    assert Cached(st2.values, b, "") == Ref(1);
    WireBackToCached(a, b, ka, kb, fa, fb, meta, fuel);
  }

  /** The inner step: with `a` cached (its wirer not yet run), resolving `b`
      builds it and its wirer picks up the cached `a`. */
  lemma InnerBuildSeesCachedValue(a: Key, b: Key, ka: nat, kb: nat, fa: string, fb: string, meta: Metadata, fuel: nat)
    requires a != b && fuel >= 1
    ensures var fs := CycleFactories(a, b, ka, kb, fa, fb);
      var st1 := State(fs, map[a := map["" := Ref(0)]], [Obj(ka, [], map[])]);
      Resolve(st1, meta, Request(b, []), fuel)
      == Out(State(fs, map[a := map["" := Ref(0)], b := map["" := Ref(1)]],
                   [Obj(ka, [], map[]), Obj(kb, [], map[fb := Ref(0)])]), Ok(Ref(1)))
  {
    var fs := CycleFactories(a, b, ka, kb, fa, fb);
    UntaggedKeyIsEmpty();
    CycleFactoryFound(fs, b, fs[b][0]);
    var st1 := State(fs, map[a := map["" := Ref(0)]], [Obj(ka, [], map[])]);
    assert Cached(st1.values, b, "") == Undefined;
    BuildSecond(a, b, ka, kb, fa, fb, meta, fuel - 1);
  }

  /** `a`'s wirer, run on the new `Ka` object with `a` cached, builds `b` and
      stores the new `Kb` object in field `fa`. */
  lemma WireFirst(a: Key, b: Key, ka: nat, kb: nat, fa: string, fb: string, meta: Metadata, fuel: nat)
    requires a != b && fuel >= 1
    ensures var fs := CycleFactories(a, b, ka, kb, fa, fb);
      var st1 := State(fs, map[a := map["" := Ref(0)]], [Obj(ka, [], map[])]);
      Wire(st1, meta, Ref(0), [(fa, Request(b, []))], 0, fuel)
      == Out(State(fs, map[a := map["" := Ref(0)], b := map["" := Ref(1)]],
                   [Obj(ka, [], map[fa := Ref(1)]), Obj(kb, [], map[fb := Ref(0)])]), Ok(()))
  {
    var fs := CycleFactories(a, b, ka, kb, fa, fb);
    var st1 := State(fs, map[a := map["" := Ref(0)]], [Obj(ka, [], map[])]);
    InnerBuildSeesCachedValue(a, b, ka, kb, fa, fb, meta, fuel);
    var st3 := State(fs, map[a := map["" := Ref(0)], b := map["" := Ref(1)]],
                     [Obj(ka, [], map[]), Obj(kb, [], map[fb := Ref(0)])]);
    var st4 := st3.(heap := [Obj(ka, [], map[fa := Ref(1)]), Obj(kb, [], map[fb := Ref(0)])]);
    var none: map<string, Value> := map[];
    assert none[fa := Ref(1)] == map[fa := Ref(1)];
    assert SetField(st3.heap, 0, fa, Ref(1)) == st4.heap;
    assert Assign(st3, Ref(0), fa, Ref(1)) == Ok(st4);
    assert AssignResolved(Out(st3, Ok(Ref(1))), Ref(0), fa) == Out(st4, Ok(()));
    assert WireField(st1, meta, Ref(0), fa, Request(b, []), fuel) == Out(st4, Ok(()));
    assert Wire(st4, meta, Ref(0), [(fa, Request(b, []))], 1, fuel) == Out(st4, Ok(()));
  }

  /** Building `a` from nothing: `new Ka()` is cached before its wirer runs. */
  lemma BuildFirst(a: Key, b: Key, ka: nat, kb: nat, fa: string, fb: string, meta: Metadata, fuel: nat)
    requires a != b && fuel >= 1
    ensures var fs := CycleFactories(a, b, ka, kb, fa, fb);
      BuildValue(State(fs, map[], []), meta, a, fs[a][0], fuel)
      == Out(State(fs, map[a := map["" := Ref(0)], b := map["" := Ref(1)]],
                   [Obj(ka, [], map[fa := Ref(1)]), Obj(kb, [], map[fb := Ref(0)])]), Ok(()))
  {
    var fs := CycleFactories(a, b, ka, kb, fa, fb);
    var ea: Entry := fs[a][0];
    var st0 := State(fs, map[], []);
    var st0' := st0.(values := map[a := map[]]);
    assert RunBuilder(st0', meta, ea.builder, fuel) == Out(st0'.(heap := [Obj(ka, [], map[])]), Ok(Ref(0)));
    var st1 := State(fs, map[a := map["" := Ref(0)]], [Obj(ka, [], map[])]);
    assert Store(st0'.values, a, "", Ref(0)) == st1.values;
    assert Cached(st1.values, a, "") == Ref(0);
    WireFirst(a, b, ka, kb, fa, fb, meta, fuel);
  }

  /** Resolving `a` first builds `a`, caches it, and its wirer builds `b`, whose
      wirer finds `a` already cached: each object holds the other. */
  lemma MutualWiring(a: Key, b: Key, ka: nat, kb: nat, fa: string, fb: string, meta: Metadata, fuel: nat)
    requires a != b && fuel >= 2
    ensures var st := State(CycleFactories(a, b, ka, kb, fa, fb), map[], []);
      var r := Resolve(st, meta, Request(a, []), fuel);
      && r.res == Ok(Ref(0))
      && r.st.heap == [Obj(ka, [], map[fa := Ref(1)]), Obj(kb, [], map[fb := Ref(0)])]
      && Cached(r.st.values, a, "") == Ref(0) && Cached(r.st.values, b, "") == Ref(1)
  {
    var fs := CycleFactories(a, b, ka, kb, fa, fb);
    UntaggedKeyIsEmpty();
    CycleFactoryFound(fs, a, fs[a][0]);
    var st0 := State(fs, map[], []);
    assert Cached(st0.values, a, "") == Undefined;
    BuildFirst(a, b, ka, kb, fa, fb, meta, fuel - 1);
    var st4 := State(fs, map[a := map["" := Ref(0)], b := map["" := Ref(1)]],
                     [Obj(ka, [], map[fa := Ref(1)]), Obj(kb, [], map[fb := Ref(0)])]);
    assert Cached(st4.values, a, "") == Ref(0) && Cached(st4.values, b, "") == Ref(1);
  }

  /** Whichever of the two is resolved first, the second is then a cache hit and
      the two objects hold back-references to each other. */
  lemma BackReferencesEitherOrder(a: Key, b: Key, ka: nat, kb: nat, fa: string, fb: string, meta: Metadata, fuel: nat, fuel': nat)
    requires a != b && fuel >= 2
    ensures var st := State(CycleFactories(a, b, ka, kb, fa, fb), map[], []);
      var first := Resolve(st, meta, Request(a, []), fuel);
      var second := Resolve(first.st, meta, Request(b, []), fuel');
      && first.res == Ok(Ref(0)) && second.res == Ok(Ref(1)) && second.st == first.st
      && second.st.heap == [Obj(ka, [], map[fa := Ref(1)]), Obj(kb, [], map[fb := Ref(0)])]
    ensures var st := State(CycleFactories(a, b, ka, kb, fa, fb), map[], []);
      var first := Resolve(st, meta, Request(b, []), fuel);
      var second := Resolve(first.st, meta, Request(a, []), fuel');
      && first.res == Ok(Ref(0)) && second.res == Ok(Ref(1)) && second.st == first.st
      && second.st.heap == [Obj(kb, [], map[fb := Ref(1)]), Obj(ka, [], map[fa := Ref(0)])]
  {
    UntaggedKeyIsEmpty();
    var fs := CycleFactories(a, b, ka, kb, fa, fb);
    MutualWiring(a, b, ka, kb, fa, fb, meta, fuel);
    var first := Resolve(State(fs, map[], []), meta, Request(a, []), fuel);
    CycleFactoryFound(fs, b, fs[b][0]);
    assert Resolve(first.st, meta, Request(b, []), fuel') == Out(first.st, Ok(Ref(1)));
    assert CycleFactories(b, a, kb, ka, fb, fa) == fs;
    MutualWiring(b, a, kb, ka, fb, fa, meta, fuel);
    var first' := Resolve(State(fs, map[], []), meta, Request(b, []), fuel);
    CycleFactoryFound(fs, a, fs[a][0]);
    assert Resolve(first'.st, meta, Request(a, []), fuel') == Out(first'.st, Ok(Ref(1)));
  }

  // ---------------------------------------------------------------------------
  // A truthy cached value is never replaced

  /** Every value that is truthy in the cache of `st` is still there in `st'`. */
  ghost predicate KeepsTruthy(st: State, st': State) {
    forall k, tk :: Truthy(Cached(st.values, k, tk)) ==> Cached(st'.values, k, tk) == Cached(st.values, k, tk)
  }

  lemma KeepsTruthyTrans(a: State, b: State, c: State)
    requires KeepsTruthy(a, b) && KeepsTruthy(b, c)
    ensures KeepsTruthy(a, c)
  {
  }

  /** A resolve only builds an entry whose cached value is falsy, so every
      truthy cached value survives it. */
  lemma {:induction false} ResolveKeepsTruthy(st: State, meta: Metadata, req: Request, fuel: nat)
    ensures KeepsTruthy(st, Resolve(st, meta, req, fuel).st)
    decreases fuel, 0, 0
  {
    match ResolveFactory(st.factories, req)
    case Err(_) =>
    case Ok(entry) =>
      if !Truthy(Cached(st.values, req.key, entry.tagsKey)) && fuel > 0 {
        BuildValueKeepsTruthy(st, meta, req.key, entry, fuel - 1);
      }
  }

  /** `buildValue` for a slot whose cached value is falsy replaces no truthy
      cached value: the store overwrites only its own slot. */
  lemma {:induction false} BuildValueKeepsTruthy(st: State, meta: Metadata, k: Key, entry: Entry, fuel: nat)
    requires !Truthy(Cached(st.values, k, entry.tagsKey))
    ensures KeepsTruthy(st, BuildValue(st, meta, k, entry, fuel).st)
    decreases fuel, 4, 0
  {
    var st0 := st.(values := if k in st.values then st.values else st.values[k := map[]]);
    assert forall k', tk' :: Cached(st0.values, k', tk') == Cached(st.values, k', tk');
    var b := RunBuilder(st0, meta, entry.builder, fuel);
    RunBuilderKeepsTruthy(st0, meta, entry.builder, fuel);
    KeepsTruthyTrans(st, st0, b.st);
    if b.res.Ok? {
      var st1 := b.st.(values := Store(b.st.values, k, entry.tagsKey, b.res.value));
      assert KeepsTruthy(st, st1);
      if entry.wirer.Some? {
        var w := entry.wirer.value;
        WireKeepsTruthy(st1, meta, Cached(st1.values, k, entry.tagsKey), w.assignments, 0, fuel);
        KeepsTruthyTrans(st, st1, BuildValue(st, meta, k, entry, fuel).st);
      }
    }
  }

  lemma {:induction false} RunBuilderKeepsTruthy(st: State, meta: Metadata, b: Builder, fuel: nat)
    ensures KeepsTruthy(st, RunBuilder(st, meta, b, fuel).st)
    decreases fuel, 3, 0
  {
    match b
    case Const(_) =>
    case ServiceNew(klass, deps) =>
      EvalListKeepsTruthy(st, meta, KeyRequests(deps), 0, [], fuel);
    case ProviderNew(klass, g) =>
      CallDepsKeepsTruthy(st, meta, g, fuel);
    case GetterNew(klass, g) =>
      CallDepsKeepsTruthy(st, meta, g, fuel);
    case InjectableNew(klass, mk) =>
      EvalListKeepsTruthy(st, meta, InjectionRequests(SortByIndex(Injections(meta, mk, klass))), 0, [], fuel);
    case PositionalNew(klass, mk, g) =>
      var injs := Injections(meta, mk, klass);
      var d := CallDeps(st, meta, g, fuel);
      CallDepsKeepsTruthy(st, meta, g, fuel);
      if d.res.Ok? {
        if d.res.value.RValue? && Primitive(d.res.value.v) {
          InjectIntoPrimitiveKeepsTruthy(d.st, meta, injs, d.res.value.v, fuel);
          KeepsTruthyTrans(st, d.st, InjectIntoPrimitive(d.st, meta, injs, d.res.value.v, fuel).st);
        } else if ProvidedProps(d.res.value).Ok? {
          var provided := ProvidedProps(d.res.value).value;
          InjectKeepsTruthy(d.st, meta, injs, 0, provided, fuel);
          KeepsTruthyTrans(st, d.st, Inject(d.st, meta, injs, 0, provided, fuel).st);
        }
      }
  }

  lemma {:induction false} CallDepsKeepsTruthy(st: State, meta: Metadata, g: DepsFn, fuel: nat)
    ensures KeepsTruthy(st, CallDeps(st, meta, g, fuel).st)
    decreases fuel, 2, 0
  {
    match g
    case ReturnsList(items) => EvalListKeepsTruthy(st, meta, items, 0, [], fuel);
    case ReturnsObject(props) => EvalPropsKeepsTruthy(st, meta, props, 0, [], fuel);
    case ReturnsValue(_) =>
    case Throws =>
  }

  lemma {:induction false} EvalKeepsTruthy(st: State, meta: Metadata, e: DepExpr, fuel: nat)
    ensures KeepsTruthy(st, Eval(st, meta, e, fuel).st)
    decreases fuel, 0, 1
  {
    if e.Dep? {
      ResolveKeepsTruthy(st, meta, e.req, fuel);
    }
  }

  lemma {:induction false} EvalListKeepsTruthy(st: State, meta: Metadata, es: seq<DepExpr>, i: nat, acc: seq<Value>, fuel: nat)
    requires i <= |es|
    ensures KeepsTruthy(st, EvalList(st, meta, es, i, acc, fuel).st)
    decreases fuel, 1, |es| - i
  {
    if i < |es| {
      var x := Eval(st, meta, es[i], fuel);
      EvalKeepsTruthy(st, meta, es[i], fuel);
      if x.res.Ok? {
        EvalListKeepsTruthy(x.st, meta, es, i + 1, acc + [x.res.value], fuel);
        KeepsTruthyTrans(st, x.st, EvalList(x.st, meta, es, i + 1, acc + [x.res.value], fuel).st);
      }
    }
  }

  lemma {:induction false} EvalPropsKeepsTruthy(st: State, meta: Metadata, ps: seq<(string, DepExpr)>, i: nat, acc: Props, fuel: nat)
    requires i <= |ps|
    ensures KeepsTruthy(st, EvalProps(st, meta, ps, i, acc, fuel).st)
    decreases fuel, 1, |ps| - i
  {
    if i < |ps| {
      var x := Eval(st, meta, ps[i].1, fuel);
      EvalKeepsTruthy(st, meta, ps[i].1, fuel);
      if x.res.Ok? {
        var acc' := Put(acc, ps[i].0, x.res.value);
        EvalPropsKeepsTruthy(x.st, meta, ps, i + 1, acc', fuel);
        KeepsTruthyTrans(st, x.st, EvalProps(x.st, meta, ps, i + 1, acc', fuel).st);
      }
    }
  }

  lemma {:induction false} InjectOneKeepsTruthy(st: State, meta: Metadata, inj: Injection, provided: Props, fuel: nat)
    ensures KeepsTruthy(st, InjectOne(st, meta, inj, provided, fuel).st)
    decreases fuel, 1, 0
  {
    ResolveKeepsTruthy(st, meta, Request(inj.key, []), fuel);
  }

  lemma {:induction false} InjectKeepsTruthy(st: State, meta: Metadata, injs: seq<Injection>, i: nat, provided: Props, fuel: nat)
    requires i <= |injs|
    ensures KeepsTruthy(st, Inject(st, meta, injs, i, provided, fuel).st)
    decreases fuel, 1, |injs| - i
  {
    if i < |injs| {
      var x := InjectOne(st, meta, injs[i], provided, fuel);
      InjectOneKeepsTruthy(st, meta, injs[i], provided, fuel);
      if x.res.Ok? {
        InjectKeepsTruthy(x.st, meta, injs, i + 1, x.res.value, fuel);
        KeepsTruthyTrans(st, x.st, Inject(x.st, meta, injs, i + 1, x.res.value, fuel).st);
      }
    }
  }

  lemma {:induction false} InjectIntoPrimitiveKeepsTruthy(st: State, meta: Metadata, injs: seq<Injection>, v: Value, fuel: nat)
    ensures KeepsTruthy(st, InjectIntoPrimitive(st, meta, injs, v, fuel).st)
    decreases fuel, 1, 0
  {
    if |injs| > 0 {
      ResolveKeepsTruthy(st, meta, Request(injs[0].key, []), fuel);
    }
  }

  lemma {:induction false} WireFieldKeepsTruthy(st: State, meta: Metadata, target: Value, f: string, req: Request, fuel: nat)
    ensures KeepsTruthy(st, WireField(st, meta, target, f, req, fuel).st)
    decreases fuel, 1, 0
  {
    ResolveKeepsTruthy(st, meta, req, fuel);
  }

  /** A wirer replaces no truthy cached value. */
  lemma {:induction false} WireKeepsTruthy(st: State, meta: Metadata, target: Value, assigns: seq<(string, Request)>, i: nat, fuel: nat)
    requires i <= |assigns|
    ensures KeepsTruthy(st, Wire(st, meta, target, assigns, i, fuel).st)
    decreases fuel, 1, |assigns| - i
  {
    if i < |assigns| {
      var x := WireField(st, meta, target, assigns[i].0, assigns[i].1, fuel);
      WireFieldKeepsTruthy(st, meta, target, assigns[i].0, assigns[i].1, fuel);
      if x.res.Ok? {
        WireKeepsTruthy(x.st, meta, target, assigns, i + 1, fuel);
        KeepsTruthyTrans(st, x.st, Wire(x.st, meta, target, assigns, i + 1, fuel).st);
      }
    }
  }

  /** `buildValue` stores the builder's value before the wirer runs: the wirer
      receives exactly the stored value, and a truthy stored value is still
      cached when the wirer is done, whether the wirer succeeded or failed. */
  lemma BuildValueWiresStoredValue(st: State, meta: Metadata, k: Key, entry: Entry, fuel: nat)
    ensures var st0 := st.(values := if k in st.values then st.values else st.values[k := map[]]);
      var b := RunBuilder(st0, meta, entry.builder, fuel);
      var r := BuildValue(st, meta, k, entry, fuel);
      && (b.res.Err? ==> r == Out(b.st, Err(b.res.error)))
      && (b.res.Ok? ==>
            var st1 := b.st.(values := Store(b.st.values, k, entry.tagsKey, b.res.value));
            && Cached(st1.values, k, entry.tagsKey) == b.res.value
            && r == (if entry.wirer.None? then Out(st1, Ok(()))
                     else Wire(st1, meta, b.res.value, entry.wirer.value.assignments, 0, fuel))
            && (Truthy(b.res.value) ==> KeepsTruthy(st1, r.st) && Cached(r.st.values, k, entry.tagsKey) == b.res.value))
  {
    var st0 := st.(values := if k in st.values then st.values else st.values[k := map[]]);
    var b := RunBuilder(st0, meta, entry.builder, fuel);
    if b.res.Ok? && entry.wirer.Some? {
      var st1 := b.st.(values := Store(b.st.values, k, entry.tagsKey, b.res.value));
      WireKeepsTruthy(st1, meta, b.res.value, entry.wirer.value.assignments, 0, fuel);
    }
  }

  /** In any state that kept the truthy cached values of `st`, resolving a
      request whose value was truthy in `st` is a cache hit that returns that
      value and changes nothing. With the lemmas above: every resolve of the
      key being built that its wirer makes returns the builder's value. */
  lemma ResolveHitsKeptValue(st: State, s: State, meta: Metadata, req: Request, fuel: nat)
    requires KeepsTruthy(st, s) && s.factories == st.factories
    requires ResolveFactory(st.factories, req).Ok? && Truthy(Cached(st.values, req.key, BuildTagsKey(req.tags)))
    ensures Resolve(s, meta, req, fuel) == Out(s, Ok(Cached(st.values, req.key, BuildTagsKey(req.tags))))
  {
    assert Cached(s.values, req.key, BuildTagsKey(req.tags)) == Cached(st.values, req.key, BuildTagsKey(req.tags));
  }
}
