/** The pure steps the generated builders take when a value is built:
    ordering `@inject` entries by parameter index (ContainerFactory.ts),
    `toInteger` and placing provided dependencies by position
    (ContainerDecoratorsBuilder.ts). */
module BuildSteps {
  import opened Common
  import opened Strings
  import opened Registry

  // ---------------------------------------------------------------------------
  // injections.sort((i1, i2) => i1.index - i2.index), a stable sort

  predicate SortedByIndex(s: seq<Injection>) {
    forall i, j :: 0 <= i < j < |s| ==> s[i].index <= s[j].index
  }

  /** The injections of `s` on parameter `n`, in their order in `s`. */
  function OnIndex(s: seq<Injection>, n: nat): seq<Injection> {
    if |s| == 0 then [] else (if s[0].index == n then [s[0]] else []) + OnIndex(s[1..], n)
  }

  function InsertByIndex(x: Injection, s: seq<Injection>): (r: seq<Injection>)
    ensures multiset(r) == multiset(s) + multiset{x}
  {
    if |s| == 0 then [x]
    else if x.index <= s[0].index then [x] + s
    else
      assert s == [s[0]] + s[1..];
      [s[0]] + InsertByIndex(x, s[1..])
  }

  lemma {:induction false} InsertByIndexSorted(x: Injection, s: seq<Injection>)
    requires SortedByIndex(s)
    ensures SortedByIndex(InsertByIndex(x, s))
  {
    if |s| > 0 && x.index > s[0].index {
      var rest := InsertByIndex(x, s[1..]);
      InsertByIndexSorted(x, s[1..]);
      var r := [s[0]] + rest;
      forall j | 0 < j < |r| ensures s[0].index <= r[j].index {
        assert r[j] in multiset(rest);
        assert r[j] == x || r[j] in s[1..];
      }
    }
  }

  /** Inserting `x` puts it before every injection on the same index. */
  lemma {:induction false} InsertByIndexStable(x: Injection, s: seq<Injection>, n: nat)
    ensures OnIndex(InsertByIndex(x, s), n) == if x.index == n then [x] + OnIndex(s, n) else OnIndex(s, n)
  {
    if |s| > 0 {
      if x.index <= s[0].index {
        var r := [x] + s;
        assert r[1..] == s;
      } else {
        InsertByIndexStable(x, s[1..], n);
        var r := [s[0]] + InsertByIndex(x, s[1..]);
        assert r[1..] == InsertByIndex(x, s[1..]);
      }
    }
  }

  /** The injections in ascending order of index; injections on the same index
      keep their order (the sort is stable). */
  function SortByIndex(s: seq<Injection>): (r: seq<Injection>)
    ensures multiset(r) == multiset(s)
  {
    if |s| == 0 then []
    else
      assert s == [s[0]] + s[1..];
      InsertByIndex(s[0], SortByIndex(s[1..]))
  }

  lemma {:induction false} SortByIndexSorted(s: seq<Injection>)
    ensures SortedByIndex(SortByIndex(s))
  {
    if |s| > 0 {
      SortByIndexSorted(s[1..]);
      InsertByIndexSorted(s[0], SortByIndex(s[1..]));
    }
  }

  lemma {:induction false} SortByIndexStable(s: seq<Injection>, n: nat)
    ensures OnIndex(SortByIndex(s), n) == OnIndex(s, n)
  {
    if |s| > 0 {
      SortByIndexStable(s[1..], n);
      InsertByIndexStable(s[0], SortByIndex(s[1..]), n);
    }
  }

  /** `SortByIndex` sorts, permutes and keeps the order among equal indices. */
  lemma SortByIndexCorrect(s: seq<Injection>)
    ensures SortedByIndex(SortByIndex(s))
    ensures multiset(SortByIndex(s)) == multiset(s)
    ensures forall n :: OnIndex(SortByIndex(s), n) == OnIndex(s, n)
  {
    SortByIndexSorted(s);
    forall n ensures OnIndex(SortByIndex(s), n) == OnIndex(s, n) {
      SortByIndexStable(s, n);
    }
  }

  // ---------------------------------------------------------------------------
  // toInteger(name, value)

  /** `i = parseInt(value); if (i.toString() === value) return i; else throw`. */
  function ToInteger(s: string): Result<Number> {
    var i := ParseInt(s);
    if NumberToString(i) == s then Ok(i) else Err(NotAnInteger)
  }

  /** `toInteger` accepts exactly the decimal strings of integers, and "NaN". */
  lemma ToIntegerCharacterization(s: string, n: int)
    ensures ToInteger(s) == Ok(Int(n)) <==> s == DecimalString(n)
    ensures ToInteger(s) == Ok(NaN) <==> s == "NaN"
    ensures ToInteger(s).Err? <==> ToInteger(s) == Err(NotAnInteger)
  {
    ToIntegerOfInt(s, n);
    ToIntegerOfNaN(s);
  }

  lemma ToIntegerOfInt(s: string, n: int)
    ensures ToInteger(s) == Ok(Int(n)) <==> s == DecimalString(n)
  {
    if s == DecimalString(n) {
      ParseIntOfDecimalString(n);
      assert NumberToString(Int(n)) == s;
    }
    if ToInteger(s) == Ok(Int(n)) {
      assert ParseInt(s) == Int(n) && NumberToString(Int(n)) == s;
    }
  }

  lemma ToIntegerOfNaN(s: string)
    ensures ToInteger(s) == Ok(NaN) <==> s == "NaN"
  {
    if s == "NaN" {
      TrimStartKeeps(s);
      assert DigitPrefixLength(s, 10) == 0;
      assert ParseUnsigned(s) == NaN;
      assert ParseInt(s) == NaN;
    }
    if ToInteger(s) == Ok(NaN) {
      assert NumberToString(NaN) == s;
    }
  }

  /** A leading zero is rejected: `parseInt("07")` is 7, printed "7". */
  lemma ToIntegerRejectsLeadingZero()
    ensures ToInteger("07") == Err(NotAnInteger)
  {
    var s := "07";
    assert TrimStart(s) == s;
    assert DigitPrefixLength(s[1..], 10) == 1;
    assert DigitPrefixLength(s, 10) == 2;
    assert s[..2] == s;
    assert s[..1] == "0" && "0"[..0] == "";
    assert DigitsValue("0", 10) == 0;
    assert DigitsValue(s, 10) == 7;
    assert ParseInt(s) == Int(7);
    assert DecimalString(7) == "7";
  }

  /** Trailing garbage is rejected: `parseInt("7a")` is 7. */
  lemma ToIntegerRejectsTrailing()
    ensures ToInteger("7a") == Err(NotAnInteger)
  {
    var s := "7a";
    assert TrimStart(s) == s;
    assert DigitPrefixLength(s, 10) == 1;
    assert s[..1] == "7";
    assert "7"[..0] == "";
    assert DigitsValue("7", 10) == 7;
    assert ParseInt(s) == Int(7);
  }

  /** The `length` property of an array is rejected: `parseInt("length")` is NaN. */
  lemma ToIntegerRejectsLength()
    ensures ToInteger("length") == Err(NotAnInteger)
  {
    var s := "length";
    TrimStartKeeps(s);
    assert DigitPrefixLength(s, 10) == 0;
    assert ParseUnsigned(s) == NaN;
    assert ParseInt(s) == NaN;
    assert NumberToString(NaN) != s;
  }

  lemma DecimalStringInjective(m: int, n: int)
    requires DecimalString(m) == DecimalString(n)
    ensures m == n
  {
    ParseIntOfDecimalString(m);
    ParseIntOfDecimalString(n);
  }

  // ---------------------------------------------------------------------------
  // Objects as property lists and arrays as sequences

  /** A plain object: its own properties in insertion order. */
  type Props = seq<(string, Value)>

  predicate DistinctKeys(o: Props) {
    forall i, j :: 0 <= i < j < |o| ==> o[i].0 != o[j].0
  }

  /** `o[k]`: the property's value, or undefined. */
  function Get(o: Props, k: string): Value {
    if |o| == 0 then Undefined else if o[0].0 == k then o[0].1 else Get(o[1..], k)
  }

  /** `o[k] = v`: replaces the property in place, or appends it. */
  function Put(o: Props, k: string, v: Value): (r: Props)
    ensures Get(r, k) == v
    ensures forall k' :: k' != k ==> Get(r, k') == Get(o, k')
  {
    if |o| == 0 then [(k, v)]
    else if o[0].0 == k then [(k, v)] + o[1..]
    else [o[0]] + Put(o[1..], k, v)
  }

  /** The keys after `o[k] = v` are the keys before, and `k`; none is repeated. */
  lemma {:induction false} PutKeys(o: Props, k: string, v: Value)
    ensures forall i :: 0 <= i < |Put(o, k, v)| ==>
      Put(o, k, v)[i].0 == k || exists j :: 0 <= j < |o| && o[j].0 == Put(o, k, v)[i].0
    ensures DistinctKeys(o) ==> DistinctKeys(Put(o, k, v))
  {
    if |o| > 0 && o[0].0 != k {
      var rest := Put(o[1..], k, v);
      var r := Put(o, k, v);
      PutKeys(o[1..], k, v);
      assert r == [o[0]] + rest;
      forall i | 0 < i < |r| && r[i].0 != k ensures exists j :: 0 <= j < |o| && o[j].0 == r[i].0 {
        assert r[i] == rest[i - 1];
        var j' :| 0 <= j' < |o[1..]| && o[1..][j'].0 == r[i].0;
        assert o[j' + 1].0 == r[i].0;
      }
      if DistinctKeys(o) {
        assert DistinctKeys(o[1..]);
        forall i, j | 0 <= i < j < |r| ensures r[i].0 != r[j].0 {
          if i == 0 && rest[j - 1].0 != k {
            assert r[j] == rest[j - 1];
            var j' :| 0 <= j' < |o[1..]| && o[1..][j'].0 == rest[j - 1].0;
            assert o[j' + 1].0 == r[j].0;
          }
        }
      }
    }
  }

  /** The largest index that is an array element index (below 2^32 - 1). */
  const MaxArrayIndex: int := 0xFFFF_FFFE

  /** `arr[i] = v` on an array: only integer indices in range are elements; the
      array grows with holes (read as undefined) up to the new element. */
  function SetElement(arr: seq<Value>, i: Number, v: Value): (r: seq<Value>)
    ensures i.Int? && 0 <= i.i <= MaxArrayIndex ==> |r| == if i.i < |arr| then |arr| else i.i + 1
    ensures i.Int? && 0 <= i.i <= MaxArrayIndex ==> r[i.i] == v
    ensures i.Int? && 0 <= i.i <= MaxArrayIndex ==>
      forall m :: 0 <= m < |r| && m != i.i ==> r[m] == if m < |arr| then arr[m] else Undefined
    ensures !(i.Int? && 0 <= i.i <= MaxArrayIndex) ==> r == arr
  {
    match i
    case NaN => arr
    case Int(n) =>
      if n < 0 || n > MaxArrayIndex then arr
      else if n < |arr| then arr[n := v]
      else arr + seq(n - |arr|, _ => Undefined) + [v]
  }

  /** Lines 131-133 of the injectable builder, from property `i` on:
      `dependencies[toInteger(k)] = providedDeps[k]` for each own key `k`. */
  function PlaceFrom(o: Props, i: nat, arr: seq<Value>): Result<seq<Value>>
    requires i <= |o|
    decreases |o| - i
  {
    if i == |o| then Ok(arr)
    else match ToInteger(o[i].0)
      case Err(e) => Err(e)
      case Ok(n) => PlaceFrom(o, i + 1, SetElement(arr, n, o[i].1))
  }

  /** The positional argument list built from the provided dependencies. */
  function Place(o: Props): Result<seq<Value>> {
    PlaceFrom(o, 0, [])
  }

  /** `toInteger` turns key `k` into an index of an array element. */
  predicate IsElementKey(k: string) {
    ToInteger(k).Ok? && ToInteger(k).value.Int? && 0 <= ToInteger(k).value.i <= MaxArrayIndex
  }

  /** Argument `m` of the list placed so far is the value of key `String(m)` among
      the first `i` properties; keys past the end name no array element. */
  ghost predicate PlacedUpTo(o: Props, i: nat, arr: seq<Value>)
    requires i <= |o|
  {
    && (forall m :: 0 <= m < |arr| ==> arr[m] == Get(o[..i], DecimalString(m)))
    && (forall j :: 0 <= j < i && IsElementKey(o[j].0) ==> ToInteger(o[j].0).value.i < |arr|)
    && (|arr| > 0 ==> exists j :: 0 <= j < i && o[j].0 == DecimalString(|arr| - 1))
    && |arr| <= MaxArrayIndex + 1
  }

  lemma GetPrefixStep(o: Props, i: nat, k: string)
    requires i < |o| && DistinctKeys(o)
    ensures Get(o[..i + 1], k) == if k == o[i].0 then o[i].1 else Get(o[..i], k)
    ensures k == o[i].0 ==> Get(o[..i], k) == Undefined
    decreases i
  {
    if i > 0 {
      assert o[..i + 1][1..] == o[1..][..i];
      assert o[..i][1..] == o[1..][..i - 1];
      assert DistinctKeys(o[1..]) by {
        forall a, b | 0 <= a < b < |o[1..]| ensures o[1..][a].0 != o[1..][b].0 {
          assert o[a + 1].0 != o[b + 1].0;
        }
      }
      GetPrefixStep(o[1..], i - 1, k);
    }
  }

  /** A position that the step's key does not name keeps its value, or is a hole. */
  lemma PlaceStepOther(o: Props, i: nat, arr: seq<Value>, n: int, m: nat)
    requires i < |o| && DistinctKeys(o) && PlacedUpTo(o, i, arr)
    requires ToInteger(o[i].0) == Ok(Int(n)) && 0 <= n <= MaxArrayIndex && m != n && (m < |arr| || m <= n)
    ensures (if m < |arr| then arr[m] else Undefined) == Get(o[..i + 1], DecimalString(m))
  {
    GetPrefixStep(o, i, DecimalString(m));
    ToIntegerCharacterization(o[i].0, n);
    if DecimalString(m) == o[i].0 { DecimalStringInjective(m, n); }
    if m >= |arr| && Get(o[..i], DecimalString(m)) != Undefined {
      // an earlier key naming position m would have put m inside arr
      GetNamesKey(o[..i], DecimalString(m));
      var j :| 0 <= j < i && o[..i][j].0 == DecimalString(m);
      ToIntegerCharacterization(o[j].0, m);
      assert IsElementKey(o[j].0);
      assert false;
    }
  }

  /** A key that names no array element leaves every position as it was. */
  lemma PlaceStepNonElement(o: Props, i: nat, n: Number, m: nat)
    requires i < |o| && DistinctKeys(o) && m <= MaxArrayIndex
    requires ToInteger(o[i].0) == Ok(n) && !(n.Int? && 0 <= n.i <= MaxArrayIndex)
    ensures Get(o[..i], DecimalString(m)) == Get(o[..i + 1], DecimalString(m))
  {
    GetPrefixStep(o, i, DecimalString(m));
    if DecimalString(m) == o[i].0 {
      ToIntegerCharacterization(o[i].0, m);
    }
  }

  /** One step of the placement loop keeps `PlacedUpTo`: element values. */
  lemma PlaceStepValues(o: Props, i: nat, arr: seq<Value>, n: Number)
    requires i < |o| && DistinctKeys(o) && PlacedUpTo(o, i, arr) && ToInteger(o[i].0) == Ok(n)
    ensures var arr' := SetElement(arr, n, o[i].1);
      forall m :: 0 <= m < |arr'| ==> arr'[m] == Get(o[..i + 1], DecimalString(m))
  {
    if n.Int? && 0 <= n.i <= MaxArrayIndex {
      PlaceStepElement(o, i, arr, n.i);
    } else {
      forall m | 0 <= m < |arr| ensures arr[m] == Get(o[..i + 1], DecimalString(m)) {
        PlaceStepNonElement(o, i, n, m);
      }
    }
  }

  lemma PlaceStepSame(o: Props, i: nat, n: int)
    requires i < |o| && DistinctKeys(o) && ToInteger(o[i].0) == Ok(Int(n))
    ensures Get(o[..i + 1], DecimalString(n)) == o[i].1
  {
    ToIntegerCharacterization(o[i].0, n);
    GetPrefixStep(o, i, DecimalString(n));
  }

  lemma PlaceStepElement(o: Props, i: nat, arr: seq<Value>, n: int)
    requires i < |o| && DistinctKeys(o) && PlacedUpTo(o, i, arr)
    requires ToInteger(o[i].0) == Ok(Int(n)) && 0 <= n <= MaxArrayIndex
    ensures var arr' := SetElement(arr, Int(n), o[i].1);
      forall m :: 0 <= m < |arr'| ==> arr'[m] == Get(o[..i + 1], DecimalString(m))
  {
    var arr' := SetElement(arr, Int(n), o[i].1);
    forall m | 0 <= m < |arr'| ensures arr'[m] == Get(o[..i + 1], DecimalString(m)) {
      if m == n {
        PlaceStepSame(o, i, n);
      } else {
        PlaceStepOther(o, i, arr, n, m);
      }
    }
  }

  /** One step of the placement loop keeps `PlacedUpTo`: element keys stay below the length. */
  lemma PlaceStepBound(o: Props, i: nat, arr: seq<Value>, n: Number)
    requires i < |o| && ToInteger(o[i].0) == Ok(n)
    requires forall j :: 0 <= j < i && IsElementKey(o[j].0) ==> ToInteger(o[j].0).value.i < |arr|
    ensures forall j :: 0 <= j < i + 1 && IsElementKey(o[j].0) ==> ToInteger(o[j].0).value.i < |SetElement(arr, n, o[i].1)|
  {
    var arr' := SetElement(arr, n, o[i].1);
    assert |arr| <= |arr'|;
    forall j | 0 <= j < i + 1 && IsElementKey(o[j].0) ensures ToInteger(o[j].0).value.i < |arr'| {
      if j == i {
        assert n.Int? && 0 <= n.i <= MaxArrayIndex && ToInteger(o[j].0).value == n;
      }
    }
  }

  /** One step of the placement loop keeps `PlacedUpTo`: the last position is named by a key. */
  lemma PlaceStepLast(o: Props, i: nat, arr: seq<Value>, n: Number)
    requires i < |o| && ToInteger(o[i].0) == Ok(n)
    requires |arr| > 0 ==> exists j :: 0 <= j < i && o[j].0 == DecimalString(|arr| - 1)
    ensures var arr' := SetElement(arr, n, o[i].1);
      |arr'| > 0 ==> exists j :: 0 <= j < i + 1 && o[j].0 == DecimalString(|arr'| - 1)
  {
    var arr' := SetElement(arr, n, o[i].1);
    if n.Int? && 0 <= n.i <= MaxArrayIndex && n.i >= |arr| {
      ToIntegerCharacterization(o[i].0, n.i);
      assert o[i].0 == DecimalString(|arr'| - 1);
    } else if |arr| > 0 {
      var j :| 0 <= j < i && o[j].0 == DecimalString(|arr| - 1);
      assert 0 <= j < i + 1;
    }
  }

  /** One step of the placement loop keeps `PlacedUpTo`: the length bounds. */
  lemma PlaceStepLength(o: Props, i: nat, arr: seq<Value>, n: Number)
    requires i < |o| && PlacedUpTo(o, i, arr) && ToInteger(o[i].0) == Ok(n)
    ensures var arr' := SetElement(arr, n, o[i].1);
      && (forall j :: 0 <= j < i + 1 && IsElementKey(o[j].0) ==> ToInteger(o[j].0).value.i < |arr'|)
      && (|arr'| > 0 ==> exists j :: 0 <= j < i + 1 && o[j].0 == DecimalString(|arr'| - 1))
      && |arr'| <= MaxArrayIndex + 1
  {
    PlaceStepBound(o, i, arr, n);
    PlaceStepLast(o, i, arr, n);
  }

  /** Every property placed: `PlacedUpTo` holds for the whole object. */
  lemma PlaceCorrect(o: Props)
    requires DistinctKeys(o)
    ensures Place(o).Ok? ==> PlacedUpTo(o, |o|, Place(o).value)
  {
    var i, arr := 0, [];
    while i < |o| && ToInteger(o[i].0).Ok?
      invariant i <= |o| && PlacedUpTo(o, i, arr) && Place(o) == PlaceFrom(o, i, arr)
      decreases |o| - i
    {
      arr := PlaceStep(o, i, arr);
      i := i + 1;
    }
  }

  /** One step of the placement loop keeps `PlacedUpTo`. */
  lemma PlaceStep(o: Props, i: nat, arr: seq<Value>) returns (arr': seq<Value>)
    requires i < |o| && DistinctKeys(o) && PlacedUpTo(o, i, arr) && ToInteger(o[i].0).Ok?
    ensures PlacedUpTo(o, i + 1, arr') && PlaceFrom(o, i, arr) == PlaceFrom(o, i + 1, arr')
  {
    var n := ToInteger(o[i].0).value;
    arr' := SetElement(arr, n, o[i].1);
    PlaceStepValues(o, i, arr, n);
    PlaceStepLength(o, i, arr, n);
  }

  lemma {:induction false} GetNamesKey(o: Props, k: string)
    requires Get(o, k) != Undefined
    ensures exists j :: 0 <= j < |o| && o[j].0 == k
  {
    if o[0].0 != k {
      GetNamesKey(o[1..], k);
      var j :| 0 <= j < |o[1..]| && o[1..][j].0 == k;
      assert o[j + 1].0 == k;
    }
  }

  /** The value at key `String(m)` becomes argument `m`; positions no key names
      stay undefined; the list ends at the largest position a key names. */
  lemma PlaceIsPositional(o: Props)
    requires DistinctKeys(o)
    ensures Place(o).Ok? ==> forall m :: 0 <= m < |Place(o).value| ==>
      Place(o).value[m] == Get(o, DecimalString(m))
    ensures Place(o).Ok? && |Place(o).value| > 0 ==>
      exists j :: 0 <= j < |o| && o[j].0 == DecimalString(|Place(o).value| - 1)
    ensures Place(o).Ok? ==> forall m :: 0 <= m <= MaxArrayIndex && m >= |Place(o).value| ==>
      forall j :: 0 <= j < |o| ==> o[j].0 != DecimalString(m)
  {
    if Place(o).Ok? {
      PlaceCorrect(o);
      var args := Place(o).value;
      assert PlacedUpTo(o, |o|, args);
      assert o[..|o|] == o;
      PlacedKeysBelow(o, args);
    }
  }

  /** No key of the whole object names a position at or past the end of the list. */
  lemma PlacedKeysBelow(o: Props, args: seq<Value>)
    requires forall j :: 0 <= j < |o| && IsElementKey(o[j].0) ==> ToInteger(o[j].0).value.i < |args|
    ensures forall m :: 0 <= m <= MaxArrayIndex && m >= |args| ==>
      forall j :: 0 <= j < |o| ==> o[j].0 != DecimalString(m)
  {
    forall m, j | 0 <= m <= MaxArrayIndex && m >= |args| && 0 <= j < |o|
      ensures o[j].0 != DecimalString(m)
    {
      if o[j].0 == DecimalString(m) {
        ToIntegerCharacterization(o[j].0, m);
        assert IsElementKey(o[j].0);
      }
    }
  }

  lemma {:induction false} PlaceErrHasBadKey(o: Props, i: nat, arr: seq<Value>)
    requires i <= |o|
    ensures PlaceFrom(o, i, arr).Err? ==> exists j :: i <= j < |o| && ToInteger(o[j].0).Err?
    decreases |o| - i
  {
    if i < |o| {
      var t := ToInteger(o[i].0);
      if t.Ok? {
        PlaceErrHasBadKey(o, i + 1, SetElement(arr, t.value, o[i].1));
      }
    }
  }

  lemma {:induction false} BadKeyMakesPlaceErr(o: Props, i: nat, arr: seq<Value>, j: nat)
    requires i <= j < |o| && ToInteger(o[j].0).Err?
    ensures PlaceFrom(o, i, arr).Err?
    decreases |o| - i
  {
    var t := ToInteger(o[i].0);
    if i < j && t.Ok? {
      var arr' := SetElement(arr, t.value, o[i].1);
      assert PlaceFrom(o, i, arr) == PlaceFrom(o, i + 1, arr');
      BadKeyMakesPlaceErr(o, i + 1, arr', j);
    }
  }

  /** Placing fails exactly when some key is neither an integer string nor "NaN". */
  lemma PlaceFailsOnBadKey(o: Props)
    ensures Place(o).Err? <==> exists j :: 0 <= j < |o| && ToInteger(o[j].0).Err?
  {
    PlaceErrHasBadKey(o, 0, []);
    if exists j :: 0 <= j < |o| && ToInteger(o[j].0).Err? {
      var j :| 0 <= j < |o| && ToInteger(o[j].0).Err?;
      BadKeyMakesPlaceErr(o, 0, [], j);
    }
  }
}
