/**
 * The select input's option logic: options grouped into buckets in order
 * of first appearance, the test for whether any named group exists, the
 * boolean <-> "true"/"false" conversion of the field value, and the
 * choice of what the drop-down shows.
 */
module FormSelect {
  import opened Wrappers

  datatype SelectOption = SelectOption(value: string, text: string, disabled: bool, group: Option<string>)

  /** The bucket an option goes to: its group when truthy, else "default". */
  function Bucket(o: SelectOption): (b: string)
    ensures Present(o.group) ==> b == o.group.value
    ensures !Present(o.group) ==> b == "default"
  {
    OrElse(o.group, "default")
  }

  /** The options of bucket `k`, in their original order. */
  function Filter(os: seq<SelectOption>, k: string): seq<SelectOption> {
    if os == [] then []
    else Filter(os[..|os| - 1], k) + (if Bucket(os[|os| - 1]) == k then [os[|os| - 1]] else [])
  }

  /** The bucket names in order of first appearance (the accumulator's key order). */
  function Keys(os: seq<SelectOption>): seq<string> {
    if os == [] then []
    else
      var ks := Keys(os[..|os| - 1]);
      if Bucket(os[|os| - 1]) in ks then ks else ks + [Bucket(os[|os| - 1])]
  }

  /**
   * The `groupedOptions` reduce: walks the options once, creating a bucket
   * on first use and pushing each option into its bucket.
   */
  method GroupOptions(os: seq<SelectOption>) returns (groups: map<string, seq<SelectOption>>, order: seq<string>)
    ensures order == Keys(os)
    ensures groups.Keys == set k | k in order
    ensures forall k :: k in groups ==> groups[k] == Filter(os, k)
  {
    groups := map[];
    order := [];
    var i := 0;
    while i < |os|
      invariant 0 <= i <= |os|
      invariant order == Keys(os[..i])
      invariant groups.Keys == set k | k in order
      invariant forall k :: k in groups ==> groups[k] == Filter(os[..i], k)
    {
      var option := os[i];
      var key := if Present(option.group) then option.group.value else "default";
      GroupStep(os, i);
      if key !in groups {
        groups := groups[key := []];
        order := order + [key];
        NotKeyEmpty(os[..i], key);
      }
      groups := groups[key := groups[key] + [option]];
      i := i + 1;
    }
    assert os[..i] == os;
  }

  /**
   * `hasGroups`, as written: more than one key, or a single key other than
   * "default". Object keys never repeat, so this is "some key is not
   * "default"".
   */
  function HasGroups(order: seq<string>): (b: bool)
    requires Distinct(order)
    ensures b <==> exists i :: 0 <= i < |order| && order[i] != "default"
  {
    assert |order| > 1 ==> order[0] != order[1];
    |order| > 1 || (|order| == 1 && order[0] != "default")
  }

  /** No name listed twice. */
  predicate Distinct(names: seq<string>) {
    forall i, j :: 0 <= i < j < |names| ==> names[i] != names[j]
  }

  // ---------------------------------------------------------------------------
  // Properties of the grouping

  /** One more option: its bucket is added to the keys if new, and the option to its bucket. */
  lemma GroupStep(os: seq<SelectOption>, i: nat)
    requires i < |os|
    ensures Keys(os[..i + 1]) ==
      if Bucket(os[i]) in Keys(os[..i]) then Keys(os[..i]) else Keys(os[..i]) + [Bucket(os[i])]
    ensures forall k ::
      Filter(os[..i + 1], k) == Filter(os[..i], k) + (if Bucket(os[i]) == k then [os[i]] else [])
  {
    assert os[..i + 1][..i] == os[..i];
  }

  /** A name that is not a key has no options. */
  lemma {:induction false} NotKeyEmpty(os: seq<SelectOption>, k: string)
    requires k !in Keys(os)
    ensures Filter(os, k) == []
  {
    if os != [] {
      NotKeyEmpty(os[..|os| - 1], k);
    }
  }

  /** The keys are exactly the buckets of the options. */
  lemma {:induction false} KeysAreBuckets(os: seq<SelectOption>, k: string)
    ensures k in Keys(os) <==> exists i :: 0 <= i < |os| && Bucket(os[i]) == k
  {
    if os != [] {
      var init := os[..|os| - 1];
      KeysAreBuckets(init, k);
      if exists i :: 0 <= i < |init| && Bucket(init[i]) == k {
        var i :| 0 <= i < |init| && Bucket(init[i]) == k;
        assert os[i] == init[i];
      }
      if exists i :: 0 <= i < |os| && Bucket(os[i]) == k {
        var i :| 0 <= i < |os| && Bucket(os[i]) == k;
        if i < |init| { assert Bucket(init[i]) == k; }
      }
    }
  }

  /** No bucket name appears twice. */
  lemma {:induction false} KeysDistinct(os: seq<SelectOption>)
    ensures Distinct(Keys(os))
  {
    if os != [] {
      KeysDistinct(os[..|os| - 1]);
    }
  }

  /** An option is in bucket `k` exactly when it is one of the options and its bucket is `k`. */
  lemma {:induction false} FilterMembers(os: seq<SelectOption>, k: string, o: SelectOption)
    ensures o in Filter(os, k) <==> o in os && Bucket(o) == k
  {
    if os != [] {
      var init := os[..|os| - 1];
      FilterMembers(init, k, o);
      assert os == init + [os[|os| - 1]];
    }
  }

  /** The total size of the buckets named in `ks`. */
  function SumSizes(os: seq<SelectOption>, ks: seq<string>): nat {
    if ks == [] then 0 else SumSizes(os, ks[..|ks| - 1]) + |Filter(os, ks[|ks| - 1])|
  }

  /** Adding an option grows exactly one bucket, if its name is listed once. */
  lemma {:induction false} SumSizesStep(os: seq<SelectOption>, o: SelectOption, ks: seq<string>)
    requires Distinct(ks)
    ensures SumSizes(os + [o], ks) == SumSizes(os, ks) + (if Bucket(o) in ks then 1 else 0)
  {
    assert (os + [o])[..|os + [o]| - 1] == os;
    if ks != [] {
      var init := ks[..|ks| - 1];
      SumSizesStep(os, o, init);
      if ks[|ks| - 1] == Bucket(o) {
        assert Bucket(o) !in init;
      }
      assert Bucket(o) in ks <==> Bucket(o) in init || ks[|ks| - 1] == Bucket(o);
    }
  }

  /** Every option lands in exactly one bucket: the bucket sizes add up to the option count. */
  lemma {:induction false} BucketSizesSum(os: seq<SelectOption>)
    ensures SumSizes(os, Keys(os)) == |os|
  {
    if os != [] {
      var init, o := os[..|os| - 1], os[|os| - 1];
      assert os == init + [o];
      BucketSizesSum(init);
      KeysDistinct(init);
      SumSizesStep(init, o, Keys(init));
      if Bucket(o) !in Keys(init) {
        NotKeyEmpty(init, Bucket(o));
        assert SumSizes(os, Keys(os)) == SumSizes(os, Keys(init)) + |Filter(os, Bucket(o))|;
      }
    }
  }

  /** `hasGroups` holds exactly when some option's bucket is not "default"; no options, no groups. */
  lemma HasGroupsIff(os: seq<SelectOption>)
    ensures Distinct(Keys(os)) && (HasGroups(Keys(os)) <==> exists i :: 0 <= i < |os| && Bucket(os[i]) != "default")
  {
    var ks := Keys(os);
    KeysDistinct(os);
    if HasGroups(ks) {
      var k := if ks[0] != "default" then ks[0] else ks[1];
      assert k in ks && k != "default";
      KeysAreBuckets(os, k);
    }
    if exists i :: 0 <= i < |os| && Bucket(os[i]) != "default" {
      var i :| 0 <= i < |os| && Bucket(os[i]) != "default";
      KeysAreBuckets(os, Bucket(os[i]));
      assert Bucket(os[i]) in ks;
    }
  }

  // ---------------------------------------------------------------------------
  // The field value

  /** The values the form field holds for a select. */
  datatype FieldValue = Bool(b: bool) | Str(s: string)

  /** The value shown to the select: booleans as "true"/"false", strings as they are. */
  function Display(v: FieldValue): (s: string)
    ensures v.Bool? ==> (s == "true" || s == "false") && (s == "true" <==> v.b)
    ensures v.Str? ==> s == v.s
  {
    match v
    case Bool(b) => if b then "true" else "false"
    case Str(s) => s
  }

  /** `onValueChange`: "true" and "false" become booleans, other strings pass through. */
  function Parse(value: string): (v: FieldValue)
    ensures v.Bool? <==> value == "true" || value == "false"
    ensures v.Bool? ==> (v.b <==> value == "true")
    ensures v.Str? ==> v.s == value
  {
    if value == "true" then Bool(true)
    else if value == "false" then Bool(false)
    else Str(value)
  }

  /** Choosing what is shown gives back the same string. */
  lemma DisplayParse(value: string)
    ensures Display(Parse(value)) == value
  {
  }

  /** A value survives display and change exactly when it is not the string "true" or "false". */
  lemma ParseDisplay(v: FieldValue)
    ensures Parse(Display(v)) == v <==> !(v.Str? && (v.s == "true" || v.s == "false"))
  {
  }

  // ---------------------------------------------------------------------------
  // What the drop-down shows

  datatype Content =
    | LoadingItem
    | NoOptionsItem
    | Grouped(groups: seq<(string, seq<SelectOption>)>)
    | Flat(options: seq<SelectOption>)

  /** The buckets in key order, each with its options. */
  function GroupList(os: seq<SelectOption>, ks: seq<string>): (gs: seq<(string, seq<SelectOption>)>)
    ensures |gs| == |ks|
    ensures forall j :: 0 <= j < |ks| ==> gs[j] == (ks[j], Filter(os, ks[j]))
  {
    if ks == [] then [] else GroupList(os, ks[..|ks| - 1]) + [(ks[|ks| - 1], Filter(os, ks[|ks| - 1]))]
  }

  /** The drop-down content: loading first, then the empty list, then groups when any, else the flat list. */
  function ChooseContent(loading: bool, os: seq<SelectOption>): (c: Content)
    ensures loading ==> c == LoadingItem
    ensures !loading && os == [] ==> c == NoOptionsItem
    ensures !loading ==> (c.Grouped? <==> exists i :: 0 <= i < |os| && Bucket(os[i]) != "default")
    ensures c.Grouped? ==> c.groups == GroupList(os, Keys(os))
    ensures !loading && os != [] && (forall i :: 0 <= i < |os| ==> Bucket(os[i]) == "default") ==> c == Flat(os)
    ensures c.Flat? ==> c.options == os && forall i :: 0 <= i < |os| ==> Bucket(os[i]) == "default"
  {
    HasGroupsIff(os);
    if loading then LoadingItem
    else if |os| == 0 then NoOptionsItem
    else if HasGroups(Keys(os)) then Grouped(GroupList(os, Keys(os)))
    else Flat(os)
  }

  /** The trigger is disabled when the field is disabled or still loading; the placeholder follows loading. */
  function Trigger(disabled: bool, loading: bool, placeholder: string, loadingMessage: string): (t: (bool, string))
    ensures t.0 <==> disabled || loading
    ensures t.1 == if loading then loadingMessage else placeholder
  {
    (disabled || loading, if loading then loadingMessage else placeholder)
  }
}
