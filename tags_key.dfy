/** Canonical tags keys, `Container.buildTagsKey`: sort the tag names, then
    concatenate `_name_value` for each of them. */
module TagsKey {
  import opened Strings

  /** A tag value: a string or a number. */
  datatype Scalar = SStr(s: string) | SNum(n: int)

  /** A tags object, as the ordered list of its own properties. */
  type Tags = seq<(string, Scalar)>

  /** An object literal never has two properties with the same name. */
  predicate DistinctNames(t: Tags) {
    forall i, j :: 0 <= i < j < |t| ==> t[i].0 != t[j].0
  }

  predicate SortedByName(t: Tags) {
    forall i, j :: 0 <= i < j < |t| ==> StrLt(t[i].0, t[j].0)
  }

  /** The string a template literal `${v}` makes of a tag value. */
  function ScalarString(v: Scalar): string {
    match v
    case SStr(s) => s
    case SNum(n) => DecimalString(n)
  }

  function Segment(p: (string, Scalar)): string {
    "_" + p.0 + "_" + ScalarString(p.1)
  }

  /** The segments of `t` concatenated in list order. */
  function Segments(t: Tags): string {
    if |t| == 0 then "" else Segment(t[0]) + Segments(t[1..])
  }

  /** Inserts `p` before the first property whose name sorts after `p`'s. */
  function InsertByName(p: (string, Scalar), s: Tags): (r: Tags)
    ensures multiset(r) == multiset(s) + multiset{p}
  {
    if |s| == 0 then [p]
    else if StrLt(p.0, s[0].0) then
      assert s == [s[0]] + s[1..];
      [p] + s
    else
      assert s == [s[0]] + s[1..];
      [s[0]] + InsertByName(p, s[1..])
  }

  /** Inserting a new name into a sorted list keeps it sorted. */
  lemma {:induction false} InsertByNameSorted(p: (string, Scalar), s: Tags)
    requires SortedByName(s) && forall i :: 0 <= i < |s| ==> s[i].0 != p.0
    ensures SortedByName(InsertByName(p, s))
  {
    if |s| == 0 {
    } else if StrLt(p.0, s[0].0) {
      forall j | 0 < j < |s| ensures StrLt(p.0, s[j].0) {
        StrLtTransitive(p.0, s[0].0, s[j].0);
      }
    } else {
      var rest := InsertByName(p, s[1..]);
      InsertByNameSorted(p, s[1..]);
      assert s == [s[0]] + s[1..];
      assert s[0].0 != p.0;
      StrLtTotal(p.0, s[0].0);
      forall j | 0 <= j < |rest| ensures StrLt(s[0].0, rest[j].0) {
        assert rest[j] in multiset(rest);
        if rest[j] != p {
          assert rest[j] in multiset(s[1..]);
          var k :| 0 <= k < |s[1..]| && s[1..][k] == rest[j];
          assert s[k + 1] == rest[j];
        }
      }
      ConsSortedByName(s[0], rest);
    }
  }

  lemma ConsSortedByName(x: (string, Scalar), s: Tags)
    requires SortedByName(s) && forall j :: 0 <= j < |s| ==> StrLt(x.0, s[j].0)
    ensures SortedByName([x] + s)
  {
    var r := [x] + s;
    forall i, j | 0 <= i < j < |r| ensures StrLt(r[i].0, r[j].0) {
      if i > 0 { assert r[i] == s[i - 1] && r[j] == s[j - 1]; }
      else { assert r[j] == s[j - 1]; }
    }
  }

  /** The properties of `t` in ascending order of their names (insertion sort). */
  function SortByName(t: Tags): (r: Tags)
    ensures multiset(r) == multiset(t)
    ensures |r| == |t|
  {
    if |t| == 0 then []
    else
      assert t == [t[0]] + t[1..];
      InsertByName(t[0], SortByName(t[1..]))
  }

  /** With distinct names, the insertion sort yields an ascending list. */
  lemma {:induction false} SortByNameSorted(t: Tags)
    requires DistinctNames(t)
    ensures SortedByName(SortByName(t))
  {
    if |t| > 0 {
      var rest := SortByName(t[1..]);
      assert t == [t[0]] + t[1..];
      assert DistinctNames(t[1..]);
      SortByNameSorted(t[1..]);
      forall i | 0 <= i < |rest| ensures rest[i].0 != t[0].0 {
        assert rest[i] in multiset(t[1..]);
        var j :| 0 <= j < |t[1..]| && t[1..][j] == rest[i];
        assert t[j + 1] == rest[i];
      }
      InsertByNameSorted(t[0], rest);
    }
  }

  /** `names.reduce((tagKey, tagName) => `${tagKey}_${tagName}_${tags[tagName]}`, acc)`. */
  function Reduce(acc: string, t: Tags): string
    decreases |t|
  {
    if |t| == 0 then acc else Reduce(acc + Segment(t[0]), t[1..])
  }

  /** `buildTagsKey(tags = {})`: the sorted names folded from the empty string. */
  function BuildTagsKey(t: Tags): string {
    Reduce("", SortByName(t))
  }

  lemma {:induction false} ReduceIsConcatenation(acc: string, t: Tags)
    ensures Reduce(acc, t) == acc + Segments(t)
    decreases |t|
  {
    if |t| > 0 {
      ReduceIsConcatenation(acc + Segment(t[0]), t[1..]);
    }
  }

  /** The tags key is the concatenation of `_name_value` over the properties in
      ascending name order; no tags give the empty key. */
  lemma BuildTagsKeyIsSortedConcatenation(t: Tags)
    requires DistinctNames(t)
    ensures BuildTagsKey(t) == Segments(SortByName(t))
    ensures SortedByName(SortByName(t)) && multiset(SortByName(t)) == multiset(t)
    ensures t == [] <==> BuildTagsKey(t) == ""
  {
    SortByNameSorted(t);
    ReduceIsConcatenation("", SortByName(t));
  }

  /** In a list sorted by name, every element but the head has a larger name. */
  lemma HeadIsLeast(a: Tags, x: (string, Scalar))
    requires SortedByName(a) && x in a && x != a[0]
    ensures StrLt(a[0].0, x.0)
  {
    var i :| 0 <= i < |a| && a[i] == x;
    assert i != 0;
  }

  lemma MultisetTail(a: Tags)
    requires |a| > 0
    ensures multiset(a[1..]) == multiset(a) - multiset{a[0]}
  {
    assert a == [a[0]] + a[1..];
  }

  /** Two lists sorted strictly by name with the same elements are the same list. */
  lemma {:induction false} SortedUnique(a: Tags, b: Tags)
    requires SortedByName(a) && SortedByName(b)
    requires multiset(a) == multiset(b)
    ensures a == b
    decreases |a|
  {
    if |a| == 0 {
      assert |multiset(b)| == 0;
    } else {
      assert a[0] in multiset(b);
      assert b[0] in multiset(a);
      if a[0] != b[0] {
        HeadIsLeast(b, a[0]);
        HeadIsLeast(a, b[0]);
        StrLtAsymmetric(a[0].0, b[0].0);
        assert false;
      }
      MultisetTail(a);
      MultisetTail(b);
      SortedUnique(a[1..], b[1..]);
    }
  }

  /** The order in which the tags are written does not affect the key. */
  lemma TagsOrderIrrelevant(t1: Tags, t2: Tags)
    requires DistinctNames(t1) && DistinctNames(t2)
    requires multiset(t1) == multiset(t2)
    ensures BuildTagsKey(t1) == BuildTagsKey(t2)
  {
    SortByNameSorted(t1);
    SortByNameSorted(t2);
    SortedUnique(SortByName(t1), SortByName(t2));
  }

  // ---------------------------------------------------------------------------
  // A tag list handed to the container where it expects a tags object

  function IndexProperties(xs: seq<string>, from: nat): Tags
    decreases |xs|
  {
    if |xs| == 0 then [] else [(DecimalString(from), SStr(xs[0]))] + IndexProperties(xs[1..], from + 1)
  }

  /** The own properties of the array `xs` as `Reflect.ownKeys` lists them: its
      indices, then `length`. */
  function ArrayAsTags(xs: seq<string>): Tags {
    IndexProperties(xs, 0) + [("length", SNum(|xs|))]
  }

  /** A tag array, even an empty one, never canonicalizes to the untagged key. */
  lemma ArrayTagsNeverUntagged(xs: seq<string>)
    ensures BuildTagsKey(ArrayAsTags(xs)) != ""
    ensures BuildTagsKey(ArrayAsTags([])) == "_length_0"
  {
    var t := ArrayAsTags(xs);
    var s := SortByName(t);
    assert |s| > 0;
    ReduceIsConcatenation("", s);
    assert Segments(s) == Segment(s[0]) + Segments(s[1..]);
    assert ArrayAsTags([]) == [("length", SNum(0))];
  }
}
