/**
 * Shaping helpers for lists of records: select options, an index by key
 * and a grouping by key. The key of a record, `String(item[key])`, is a
 * parameter.
 */
module DataTransformers {
  import opened Wrappers
  import opened Seqs

  /** An option of a select input; `text` is its displayed label. */
  datatype SelectOption = SelectOption(value: string, text: string)

  /** `toSelectOptions`: one option per item, in the items' order. */
  function ToSelectOptions<T>(items: seq<T>, getValue: T -> string, getLabel: T -> string): (r: seq<SelectOption>)
    ensures |r| == |items|
    ensures forall i :: 0 <= i < |items| ==> r[i] == SelectOption(getValue(items[i]), getLabel(items[i]))
  {
    Map(items, (x: T) => SelectOption(getValue(x), getLabel(x)))
  }

  /** Some item carries the key. */
  predicate HasKey<T>(items: seq<T>, keyOf: T -> string, k: string)
  {
    exists i :: 0 <= i < |items| && keyOf(items[i]) == k
  }

  /** `items[i]` is the last item carrying its key. */
  predicate LastWithKey<T>(items: seq<T>, keyOf: T -> string, i: int)
    requires 0 <= i < |items|
  {
    forall j :: i < j < |items| ==> keyOf(items[j]) != keyOf(items[i])
  }

  /** One more item adds its key to the keys that occur. */
  lemma HasKeyStep<T>(items: seq<T>, keyOf: T -> string, n: nat)
    requires n < |items|
    ensures forall k :: HasKey(items[..n + 1], keyOf, k) <==> HasKey(items[..n], keyOf, k) || keyOf(items[n]) == k
  {
    forall k ensures HasKey(items[..n + 1], keyOf, k) <==> HasKey(items[..n], keyOf, k) || keyOf(items[n]) == k {
      if HasKey(items[..n + 1], keyOf, k) {
        var i :| 0 <= i < n + 1 && keyOf(items[..n + 1][i]) == k;
        if i < n {
          assert items[..n][i] == items[i];
        }
      }
      if HasKey(items[..n], keyOf, k) {
        var i :| 0 <= i < n && keyOf(items[..n][i]) == k;
        assert items[..n + 1][i] == items[i];
      }
      if keyOf(items[n]) == k {
        assert items[..n + 1][n] == items[n];
      }
    }
  }

  /** `indexBy`: each key that occurs maps to the last item carrying it. */
  method IndexBy<T>(items: seq<T>, keyOf: T -> string) returns (index: map<string, T>)
    ensures forall k :: k in index <==> HasKey(items, keyOf, k)
    ensures forall k :: k in index ==> exists i :: 0 <= i < |items| && keyOf(items[i]) == k && index[k] == items[i] && LastWithKey(items, keyOf, i)
  {
    index := map[];
    var n := 0;
    while n < |items|
      invariant 0 <= n <= |items|
      invariant forall k :: k in index <==> HasKey(items[..n], keyOf, k)
      invariant forall k :: k in index ==> exists i :: (0 <= i < n && keyOf(items[i]) == k && index[k] == items[i] &&
                                                      forall j :: i < j < n ==> keyOf(items[j]) != k)
    {
      var x := items[n];
      index := index[keyOf(x) := x];
      HasKeyStep(items, keyOf, n);
      n := n + 1;
    }
    assert items[..n] == items;
  }

  /** The items carrying the key, in their order. */
  function Group<T>(items: seq<T>, keyOf: T -> string, k: string): seq<T>
  {
    Filter(items, (x: T) => keyOf(x) == k)
  }

  /** One more item joins the group of its key and no other. */
  lemma GroupStep<T>(items: seq<T>, keyOf: T -> string, n: nat)
    requires n < |items|
    ensures forall k :: Group(items[..n + 1], keyOf, k) == Group(items[..n], keyOf, k) + (if keyOf(items[n]) == k then [items[n]] else [])
  {
    assert items[..n + 1] == items[..n] + [items[n]];
    forall k ensures Group(items[..n + 1], keyOf, k) == Group(items[..n], keyOf, k) + (if keyOf(items[n]) == k then [items[n]] else []) {
      FilterSnoc(items[..n], items[n], (y: T) => keyOf(y) == k);
    }
  }

  /** `groups` is the grouping of the first `n` items. */
  ghost predicate GroupsOf<T>(groups: map<string, seq<T>>, items: seq<T>, keyOf: T -> string, n: nat)
    requires n <= |items|
  {
    (forall k :: k in groups <==> HasKey(items[..n], keyOf, k)) &&
    (forall k :: k in groups ==> groups[k] == Group(items[..n], keyOf, k)) &&
    (forall k :: k !in groups ==> Group(items[..n], keyOf, k) == [])
  }

  /** `acc[k] = acc[k] || []; acc[k].push(item)`. */
  function Push<T>(groups: map<string, seq<T>>, k: string, x: T): map<string, seq<T>>
  {
    groups[k := (if k in groups then groups[k] else []) + [x]]
  }

  lemma GroupsOfStep<T>(groups: map<string, seq<T>>, items: seq<T>, keyOf: T -> string, n: nat)
    requires n < |items| && GroupsOf(groups, items, keyOf, n)
    ensures GroupsOf(Push(groups, keyOf(items[n]), items[n]), items, keyOf, n + 1)
  {
    var g := Push(groups, keyOf(items[n]), items[n]);
    HasKeyStep(items, keyOf, n);
    GroupStep(items, keyOf, n);
    forall k
      ensures k in g <==> HasKey(items[..n + 1], keyOf, k)
      ensures k in g ==> g[k] == Group(items[..n + 1], keyOf, k)
      ensures k !in g ==> Group(items[..n + 1], keyOf, k) == []
    {
      GroupsOfStepAt(groups, items, keyOf, n, k);
    }
  }

  /** The step for one key: only the group of the pushed item's key changes, by that item. */
  lemma GroupsOfStepAt<T>(groups: map<string, seq<T>>, items: seq<T>, keyOf: T -> string, n: nat, k: string)
    requires n < |items| && GroupsOf(groups, items, keyOf, n)
    requires HasKey(items[..n + 1], keyOf, k) <==> HasKey(items[..n], keyOf, k) || keyOf(items[n]) == k
    requires Group(items[..n + 1], keyOf, k) == Group(items[..n], keyOf, k) + (if keyOf(items[n]) == k then [items[n]] else [])
    ensures var g := Push(groups, keyOf(items[n]), items[n]);
            (k in g <==> HasKey(items[..n + 1], keyOf, k)) &&
            (k in g ==> g[k] == Group(items[..n + 1], keyOf, k)) &&
            (k !in g ==> Group(items[..n + 1], keyOf, k) == [])
  {
    var x := items[n];
    var g := Push(groups, keyOf(x), x);
    if k == keyOf(x) {
      assert k in g && g[k] == (if k in groups then groups[k] else []) + [x];
    } else {
      assert (k in g <==> k in groups) && (k in g ==> g[k] == groups[k]);
    }
  }

  /**
   * The properties every plain `{}` inherits from `Object.prototype`. Each is
   * a function, or for `__proto__` the prototype itself, and none has a `push`.
   */
  const InheritedNames: set<string> :=
    {"constructor", "toString", "toLocaleString", "valueOf", "hasOwnProperty", "isPrototypeOf",
     "propertyIsEnumerable", "__defineGetter__", "__defineSetter__", "__lookupGetter__",
     "__lookupSetter__", "__proto__"}

  /** A grouping whose keys are all own keys covers only items with own keys. */
  lemma OwnKeysOnly<T>(groups: map<string, seq<T>>, items: seq<T>, keyOf: T -> string)
    requires forall k :: k in groups <==> HasKey(items, keyOf, k)
    requires forall k :: k in groups ==> k !in InheritedNames
    ensures forall i :: 0 <= i < |items| ==> keyOf(items[i]) !in InheritedNames
  {
    forall i | 0 <= i < |items|
      ensures keyOf(items[i]) !in InheritedNames
    {
      assert HasKey(items, keyOf, keyOf(items[i]));
    }
  }

  /**
   * `groupBy`: each key that occurs maps to the items carrying it, in the
   * items' order. An item whose key names an inherited property finds that
   * property in `acc[k] || []` and the `push` on it raises a TypeError,
   * modelled as `None`.
   */
  method GroupBy<T>(items: seq<T>, keyOf: T -> string) returns (r: Option<map<string, seq<T>>>)
    ensures r.None? <==> exists i :: 0 <= i < |items| && keyOf(items[i]) in InheritedNames
    ensures r.Some? ==> forall k :: k in r.value <==> HasKey(items, keyOf, k)
    ensures r.Some? ==> forall k :: k in r.value ==> r.value[k] == Group(items, keyOf, k)
  {
    var groups := map[];
    var n := 0;
    while n < |items|
      invariant 0 <= n <= |items|
      invariant GroupsOf(groups, items, keyOf, n)
      invariant forall k :: k in groups ==> k !in InheritedNames
    {
      if keyOf(items[n]) in InheritedNames {
        return None;
      }
      GroupsOfStep(groups, items, keyOf, n);
      groups := Push(groups, keyOf(items[n]), items[n]);
      n := n + 1;
    }
    GroupsOfAll(groups, items, keyOf);
    OwnKeysOnly(groups, items, keyOf);
    r := Some(groups);
  }

  /** Once every item is pushed, the groups are those of the whole list. */
  lemma GroupsOfAll<T>(groups: map<string, seq<T>>, items: seq<T>, keyOf: T -> string)
    requires GroupsOf(groups, items, keyOf, |items|)
    ensures forall k :: k in groups <==> HasKey(items, keyOf, k)
    ensures forall k :: k in groups ==> groups[k] == Group(items, keyOf, k)
  {
    assert items[..|items|] == items;
  }

  /** Every item lies in the group of its own key. */
  lemma ItemInItsGroup<T>(items: seq<T>, keyOf: T -> string, i: nat)
    requires i < |items|
    ensures items[i] in Group(items, keyOf, keyOf(items[i]))
  {
  }

  function GroupSize<T>(items: seq<T>, keyOf: T -> string, k: string): nat
  {
    |Group(items, keyOf, k)|
  }

  /** The total size of the groups of the keys `ks`. */
  function SizeSum<T>(items: seq<T>, keyOf: T -> string, ks: seq<string>): int
  {
    SumInt(ks, (k: string) => GroupSize(items, keyOf, k))
  }

  lemma {:induction false} SizeSumEmpty<T>(keyOf: T -> string, ks: seq<string>)
    ensures SizeSum([], keyOf, ks) == 0
  {
    if ks != [] {
      SizeSumEmpty(keyOf, ks[..|ks| - 1]);
    }
  }

  /** One more item adds one to the total when its key is among `ks`. */
  lemma {:induction false} SizeSumSnoc<T>(items: seq<T>, x: T, keyOf: T -> string, ks: seq<string>)
    requires Distinct(ks)
    ensures SizeSum(items + [x], keyOf, ks) == SizeSum(items, keyOf, ks) + (if keyOf(x) in ks then 1 else 0)
  {
    if ks != [] {
      var init := ks[..|ks| - 1];
      var k := ks[|ks| - 1];
      assert Distinct(init);
      SizeSumSnoc(items, x, keyOf, init);
      FilterSnoc(items, x, (y: T) => keyOf(y) == k);
      assert ks == init + [k];
      assert keyOf(x) in ks <==> keyOf(x) in init || keyOf(x) == k;
      assert k !in init;
    }
  }

  /** With distinct keys covering every item, the groups' sizes add up to the number of items. */
  lemma {:induction false} SizeSumAll<T>(items: seq<T>, keyOf: T -> string, ks: seq<string>)
    requires Distinct(ks) && forall i :: 0 <= i < |items| ==> keyOf(items[i]) in ks
    ensures SizeSum(items, keyOf, ks) == |items|
  {
    if items == [] {
      SizeSumEmpty(keyOf, ks);
    } else {
      var init := items[..|items| - 1];
      var x := items[|items| - 1];
      SizeSumAll(init, keyOf, ks);
      assert items == init + [x];
      SizeSumSnoc(init, x, keyOf, ks);
    }
  }

  /** `groupBy` partitions the items: over the keys that occur, the group sizes add up to the item count. */
  lemma GroupsPartition<T>(items: seq<T>, keyOf: T -> string)
    ensures SizeSum(items, keyOf, Dedup(Map(items, keyOf))) == |items|
  {
    var ks := Dedup(Map(items, keyOf));
    forall i | 0 <= i < |items| ensures keyOf(items[i]) in ks {
      assert Map(items, keyOf)[i] == keyOf(items[i]);
    }
    SizeSumAll(items, keyOf, ks);
  }
}
