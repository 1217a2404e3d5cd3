/**
 * The product variant editor: editing the list of attributes and their
 * values, and generating one variant per combination of attribute values.
 *
 * A combination is a record from attribute name to value, kept as a list of
 * pairs in key insertion order (the order `Object.values` reports for
 * non-numeric keys).
 */
module VariantManager {
  import opened Wrappers
  import opened Seqs
  import opened Text

  datatype Attribute = Attribute(name: string, values: seq<string>)

  /** `Partial<VariantAttribute>`. */
  datatype AttributePatch = AttributePatch(name: Option<string>, values: Option<seq<string>>)

  type Pair = (string, string)
  type Combo = seq<Pair>

  datatype Variant = Variant(id: string, sku: string, attributes: Combo, price: real, quantity: real)

  // ------------------------------------------------------------ attribute list

  /** `addAttribute`: a new attribute named "Attribute n+1" with no values. */
  function AddAttribute(attrs: seq<Attribute>): (r: seq<Attribute>)
    ensures |r| == |attrs| + 1 && r[..|attrs|] == attrs
    ensures r[|attrs|].values == [] && r[|attrs|].name == "Attribute " + NatToString(|attrs| + 1)
  {
    attrs + [Attribute("Attribute " + NatToString(|attrs| + 1), [])]
  }

  function ApplyPatch(a: Attribute, patch: AttributePatch): Attribute
  {
    Attribute(if patch.name.Some? then patch.name.value else a.name,
              if patch.values.Some? then patch.values.value else a.values)
  }

  /** `updateAttribute(i, patch)`: only attribute `i` changes. */
  function UpdateAttribute(attrs: seq<Attribute>, i: int, patch: AttributePatch): (r: seq<Attribute>)
    ensures |r| == |attrs|
    ensures forall k :: 0 <= k < |attrs| && k != i ==> r[k] == attrs[k]
    ensures 0 <= i < |attrs| ==> r[i] == ApplyPatch(attrs[i], patch)
  {
    seq(|attrs|, k requires 0 <= k < |attrs| => if k == i then ApplyPatch(attrs[k], patch) else attrs[k])
  }

  /** `removeAttribute(i)`: attribute `i` dropped, the others kept in order. */
  function RemoveAttribute(attrs: seq<Attribute>, i: int): (r: seq<Attribute>)
    ensures 0 <= i < |attrs| ==> r == attrs[..i] + attrs[i + 1..]
    ensures !(0 <= i < |attrs|) ==> r == attrs
  {
    if 0 <= i < |attrs| then attrs[..i] + attrs[i + 1..] else attrs
  }

  /** Enter in the value box of attribute `i`: the trimmed input is appended, unless it is blank. */
  function AddValue(attrs: seq<Attribute>, i: nat, input: string): (r: seq<Attribute>)
    requires i < |attrs|
    ensures Strip(input) == "" ==> r == attrs
    ensures Strip(input) != "" ==>
              |r| == |attrs| && r[i] == Attribute(attrs[i].name, attrs[i].values + [Strip(input)])
              && forall k :: 0 <= k < |attrs| && k != i ==> r[k] == attrs[k]
  {
    var v := Strip(input);
    if v == "" then attrs else UpdateAttribute(attrs, i, AttributePatch(None, Some(attrs[i].values + [v])))
  }

  /** The × on value `vi` of attribute `i`. */
  function RemoveValue(attrs: seq<Attribute>, i: nat, vi: int): (r: seq<Attribute>)
    requires i < |attrs|
    ensures |r| == |attrs| && r[i].name == attrs[i].name
    ensures 0 <= vi < |attrs[i].values| ==> r[i].values == attrs[i].values[..vi] + attrs[i].values[vi + 1..]
    ensures !(0 <= vi < |attrs[i].values|) ==> r == attrs
    ensures forall k :: 0 <= k < |attrs| && k != i ==> r[k] == attrs[k]
  {
    var vs := attrs[i].values;
    UpdateAttribute(attrs, i, AttributePatch(None, Some(if 0 <= vi < |vs| then vs[..vi] + vs[vi + 1..] else vs)))
  }

  // ------------------------------------------------------------ combinations

  /** `{...base, [k]: v}`: an existing key keeps its place and takes the new value, a new key goes last. */
  function Put(c: Combo, k: string, v: string): (r: Combo)
    ensures |r| == |c| || |r| == |c| + 1
  {
    if c == [] then [(k, v)]
    else if c[0].0 == k then [(k, v)] + c[1..]
    else [c[0]] + Put(c[1..], k, v)
  }

  predicate HasKey(c: Combo, k: string)
  {
    exists i :: 0 <= i < |c| && c[i].0 == k
  }

  /** With a new key, `Put` appends. */
  lemma {:induction false} PutNewKey(c: Combo, k: string, v: string)
    requires !HasKey(c, k)
    ensures Put(c, k, v) == c + [(k, v)]
  {
    if c != [] {
      assert c[0].0 != k;
      assert !HasKey(c[1..], k);
      PutNewKey(c[1..], k, v);
    }
  }

  /** `a.values.map(v => ({ [a.name]: v }))`, as pairs. */
  function Pairs(a: Attribute): (r: seq<Pair>)
    ensures |r| == |a.values|
  {
    Map(a.values, (v: string) => (a.name, v))
  }

  function Single(p: Pair): Combo { [p] }

  /** `{ ...base, ...item }` for a one-key item. */
  function Merge(base: Combo): Pair -> Combo
  {
    (p: Pair) => Put(base, p.0, p.1)
  }

  /** One base record merged with each item of a list. */
  function Row(base: Combo, list: seq<Pair>): (r: seq<Combo>)
    ensures |r| == |list|
  {
    Map(list, Merge(base))
  }

  /** Every base merged with every item, bases outermost. */
  function Product(acc: seq<Combo>, list: seq<Pair>): seq<Combo>
  {
    if acc == [] then [] else Product(acc[..|acc| - 1], list) + Row(acc[|acc| - 1], list)
  }

  /** One step of the `reduce`: an empty accumulator restarts from the list itself. */
  function Step(acc: seq<Combo>, list: seq<Pair>): seq<Combo>
  {
    if acc == [] then Map(list, Single) else Product(acc, list)
  }

  /** The `reduce` over all value lists, as written. */
  function Combos(lists: seq<seq<Pair>>): (r: seq<Combo>)
    ensures |lists| == 1 ==> r == Map(lists[0], Single)
    ensures |lists| > 0 && lists[|lists| - 1] == [] ==> r == []
  {
    if lists == [] then []
    else
      var acc := Combos(lists[..|lists| - 1]);
      ProductCount(acc, lists[|lists| - 1]);
      Step(acc, lists[|lists| - 1])
  }

  lemma {:induction false} ProductCount(acc: seq<Combo>, list: seq<Pair>)
    ensures |Product(acc, list)| == |acc| * |list|
  {
    if acc != [] {
      var init := acc[..|acc| - 1];
      ProductCount(init, list);
      assert |Product(acc, list)| == |Product(init, list)| + |list|;
      MulSucc(|init|, |list|);
    }
  }

  lemma MulSucc(n: nat, m: nat)
    ensures (n + 1) * m == n * m + m
  {
  }

  lemma MulStep(i: nat, j: nat, n: nat, m: nat)
    requires i < n && j < m
    ensures i * m + j < n * m
    ensures i < n - 1 ==> i * m + j < (n - 1) * m
  {
    MulSucc(i, m);
    MulMono(i + 1, n, m);
    if i < n - 1 {
      MulMono(i + 1, n - 1, m);
    }
  }

  lemma MulMono(a: nat, b: nat, m: nat)
    requires a <= b
    ensures a * m <= b * m
  {
    var d := b - a;
    assert b * m == a * m + d * m;
  }

  /** The combination of base `i` with item `j` sits at `i * |list| + j`: bases outermost. */
  lemma {:induction false} ProductAt(acc: seq<Combo>, list: seq<Pair>, i: nat, j: nat)
    requires i < |acc| && j < |list|
    ensures |Product(acc, list)| == |acc| * |list|
    ensures Product(acc, list)[i * |list| + j] == Put(acc[i], list[j].0, list[j].1)
  {
    var n := |acc|;
    var m := |list|;
    var init := acc[..n - 1];
    var front, row := Product(init, list), Row(acc[n - 1], list);
    assert Product(acc, list) == front + row;
    ProductCount(acc, list);
    ProductCount(init, list);
    MulStep(i, j, n, m);
    if i < n - 1 {
      ProductAt(init, list, i, j);
      assert init[i] == acc[i];
      assert (front + row)[i * m + j] == front[i * m + j];
    } else {
      assert i * m + j == |front| + j;
      assert (front + row)[|front| + j] == row[j];
    }
  }

  /** The product of the lengths of the value lists. */
  function CountProduct(lists: seq<seq<Pair>>): nat
  {
    if lists == [] then 1 else CountProduct(lists[..|lists| - 1]) * |lists[|lists| - 1]|
  }

  predicate AllNonEmpty(lists: seq<seq<Pair>>)
  {
    forall k :: 0 <= k < |lists| ==> |lists[k]| > 0
  }

  /** With a value for every attribute, there is one combination per choice of values. */
  lemma {:induction false} CombosCount(lists: seq<seq<Pair>>)
    requires |lists| >= 1 && AllNonEmpty(lists)
    ensures |Combos(lists)| == CountProduct(lists) > 0
  {
    var init := lists[..|lists| - 1];
    var last := lists[|lists| - 1];
    if |init| == 0 {
      assert Combos(init) == [];
    } else {
      assert AllNonEmpty(init) by {
        forall k | 0 <= k < |init| ensures |init[k]| > 0 { assert init[k] == lists[k]; }
      }
      CombosCount(init);
      ProductCount(Combos(init), last);
    }
  }

  /**
   * The combination loop as written: the `reduce` over the value lists,
   * with the nested `forEach` loops pushing each merge into `next`.
   */
  method CombineLists(lists: seq<seq<Pair>>) returns (combos: seq<Combo>)
    ensures combos == Combos(lists)
  {
    combos := [];
    var k := 0;
    while k < |lists|
      invariant 0 <= k <= |lists|
      invariant combos == Combos(lists[..k])
    {
      var list := lists[k];
      if combos == [] {
        combos := Map(list, Single);
      } else {
        combos := MergeEach(combos, list);
      }
      assert lists[..k + 1][..k] == lists[..k];
      k := k + 1;
    }
    assert lists[..k] == lists;
  }

  /** The nested `forEach` loops: each base in turn, merged with each item in turn, pushed into `next`. */
  method MergeEach(combos: seq<Combo>, list: seq<Pair>) returns (next: seq<Combo>)
    ensures next == Product(combos, list)
  {
    next := [];
    var b := 0;
    while b < |combos|
      invariant 0 <= b <= |combos|
      invariant next == Product(combos[..b], list)
    {
      var t := 0;
      while t < |list|
        invariant 0 <= t <= |list|
        invariant next == Product(combos[..b], list) + Row(combos[b], list[..t])
      {
        assert list[..t + 1] == list[..t] + [list[t]];
        MapSnoc(list[..t], list[t], Merge(combos[b]));
        next := next + [Put(combos[b], list[t].0, list[t].1)];
        t := t + 1;
      }
      assert list[..t] == list;
      assert combos[..b + 1][..b] == combos[..b];
      b := b + 1;
    }
    assert combos[..b] == combos;
  }

  /** The values of a combination in key order. */
  function ComboValues(c: Combo): seq<string>
  {
    Map(c, (p: Pair) => p.1)
  }

  /** Variant `i` gets id `i + 1`, the values joined by '-' as SKU, price and quantity 0. */
  function ToVariants(combos: seq<Combo>): (r: seq<Variant>)
    ensures |r| == |combos|
    ensures forall i :: 0 <= i < |r| ==>
              r[i].id == NatToString(i + 1) && r[i].attributes == combos[i]
              && r[i].sku == Join(ComboValues(combos[i]), "-") && r[i].price == 0.0 && r[i].quantity == 0.0
  {
    seq(|combos|, i requires 0 <= i < |combos| => Variant(NatToString(i + 1), Join(ComboValues(combos[i]), "-"), combos[i], 0.0, 0.0))
  }

  /** `generateVariants`: nothing without attributes, else one variant per combination. */
  method GenerateVariants(attrs: seq<Attribute>) returns (r: Option<seq<Variant>>)
    ensures attrs == [] ==> r == None
    ensures attrs != [] ==> r == Some(ToVariants(Combos(Map(attrs, Pairs))))
  {
    if attrs == [] {
      return None;
    }
    var combos := CombineLists(Map(attrs, Pairs));
    r := Some(ToVariants(combos));
  }

  /** The new price of variant `id`, as typed: `value.map(x => x.id === id ? {...x, price} : x)`. */
  function SetPrice(variants: seq<Variant>, id: string, price: real): (r: seq<Variant>)
    ensures |r| == |variants|
    ensures forall i :: 0 <= i < |r| ==> r[i] == if variants[i].id == id then variants[i].(price := price) else variants[i]
  {
    Map(variants, (x: Variant) => if x.id == id then x.(price := price) else x)
  }

  /** The new quantity of variant `id`, as typed. */
  function SetQuantity(variants: seq<Variant>, id: string, quantity: real): (r: seq<Variant>)
    ensures |r| == |variants|
    ensures forall i :: 0 <= i < |r| ==> r[i] == if variants[i].id == id then variants[i].(quantity := quantity) else variants[i]
  {
    Map(variants, (x: Variant) => if x.id == id then x.(quantity := quantity) else x)
  }

  // ------------------------------------------------------------ distinct combinations

  function NameOf(a: Attribute): string { a.name }

  /** Every pair of `lists[k]` carries the name `names[k]`. */
  predicate NamedLists(lists: seq<seq<Pair>>, names: seq<string>)
  {
    |lists| == |names| && forall k, p :: 0 <= k < |lists| && 0 <= p < |lists[k]| ==> lists[k][p].0 == names[k]
  }

  /** Every key of the combination is one of `names`. */
  predicate KeysAmong(c: Combo, names: seq<string>)
  {
    forall p :: 0 <= p < |c| ==> c[p].0 in names
  }

  /** Every member of a product is one base merged with one item. */
  lemma {:induction false} ProductMember(acc: seq<Combo>, list: seq<Pair>, c: Combo)
    requires c in Product(acc, list)
    ensures exists i, j :: 0 <= i < |acc| && 0 <= j < |list| && c == Put(acc[i], list[j].0, list[j].1)
    decreases |acc|
  {
    var n := |acc| - 1;
    var init := acc[..n];
    if c in Product(init, list) {
      ProductMember(init, list, c);
      var i, j :| 0 <= i < |init| && 0 <= j < |list| && c == Put(init[i], list[j].0, list[j].1);
      assert init[i] == acc[i];
    } else {
      var row := Row(acc[n], list);
      var j :| 0 <= j < |row| && row[j] == c;
      assert c == Put(acc[n], list[j].0, list[j].1);
    }
  }

  /** Position `p` of an `n` by `m` product is row `p / m`, column `p % m`. */
  lemma SplitIndex(p: nat, n: nat, m: nat)
    requires p < n * m
    ensures m > 0 && p == (p / m) * m + p % m && p / m < n && 0 <= p % m < m
  {
    if p / m >= n {
      MulMono(n, p / m, m);
    }
  }

  /** Position `p` of a product with a new key holds base `i` extended by item `j`, where `p == i * |list| + j`. */
  lemma ProductEntry(acc: seq<Combo>, list: seq<Pair>, name: string, p: nat) returns (i: nat, j: nat)
    requires forall j :: 0 <= j < |list| ==> list[j].0 == name
    requires forall i :: 0 <= i < |acc| ==> !HasKey(acc[i], name)
    requires p < |acc| * |list|
    ensures i < |acc| && j < |list| && p == i * |list| + j
    ensures |Product(acc, list)| == |acc| * |list|
    ensures Product(acc, list)[p] == acc[i] + [list[j]]
  {
    var m := |list|;
    SplitIndex(p, |acc|, m);
    i, j := p / m, p % m;
    ProductAt(acc, list, i, j);
    PutNewKey(acc[i], name, list[j].1);
    assert list[j] == (name, list[j].1);
  }

  /** Two positions of a product hold different merges when bases and items are distinct and the key is new. */
  lemma ProductDistinctAt(acc: seq<Combo>, list: seq<Pair>, name: string, p: nat, q: nat)
    requires Distinct(acc) && Distinct(list)
    requires forall j :: 0 <= j < |list| ==> list[j].0 == name
    requires forall i :: 0 <= i < |acc| ==> !HasKey(acc[i], name)
    requires p < q < |acc| * |list|
    ensures |Product(acc, list)| == |acc| * |list|
    ensures Product(acc, list)[p] != Product(acc, list)[q]
  {
    var i, j := ProductEntry(acc, list, name, p);
    var i', j' := ProductEntry(acc, list, name, q);
    var a, b := acc[i] + [list[j]], acc[i'] + [list[j']];
    if i != i' {
      assert acc[i] != acc[i'];
      assert a[..|a| - 1] == acc[i] && b[..|b| - 1] == acc[i'];
    } else {
      assert j != j';
      assert a[|a| - 1] == list[j] && b[|b| - 1] == list[j'];
    }
  }

  lemma ProductDistinct(acc: seq<Combo>, list: seq<Pair>, name: string)
    requires Distinct(acc) && Distinct(list)
    requires forall j :: 0 <= j < |list| ==> list[j].0 == name
    requires forall i :: 0 <= i < |acc| ==> !HasKey(acc[i], name)
    ensures Distinct(Product(acc, list))
  {
    ProductCount(acc, list);
    var r := Product(acc, list);
    forall p, q | 0 <= p < q < |r|
      ensures r[p] != r[q]
    {
      ProductDistinctAt(acc, list, name, p, q);
    }
  }

  /**
   * With distinct names and no value list repeating a pair, the `reduce`
   * yields every combination at most once, each keyed by the names.
   */
  lemma {:induction false} CombosDistinctKeys(lists: seq<seq<Pair>>, names: seq<string>)
    requires NamedLists(lists, names) && Distinct(names)
    requires forall k :: 0 <= k < |lists| ==> Distinct(lists[k])
    ensures Distinct(Combos(lists))
    ensures forall c :: c in Combos(lists) ==> KeysAmong(c, names)
    decreases |lists|
  {
    if lists != [] {
      var n := |lists| - 1;
      var init, last, name := lists[..n], lists[n], names[n];
      assert NamedLists(init, names[..n]) by {
        forall k, p | 0 <= k < |init| && 0 <= p < |init[k]|
          ensures init[k][p].0 == names[..n][k]
        {
          assert init[k] == lists[k];
        }
      }
      assert forall k :: 0 <= k < |init| ==> init[k] == lists[k];
      CombosDistinctKeys(init, names[..n]);
      var acc := Combos(init);
      assert forall j :: 0 <= j < |last| ==> last[j].0 == name;
      assert name !in names[..n];
      if acc == [] {
        RestartDistinct(last, name, names);
      } else {
        forall i | 0 <= i < |acc|
          ensures !HasKey(acc[i], name)
        {
          assert acc[i] in acc;
        }
        ProductDistinct(acc, last, name);
        ProductKeys(acc, last, name, names[..n], names);
      }
    }
  }

  /** A restart from one value list gives distinct one-pair combinations keyed by its name. */
  lemma RestartDistinct(list: seq<Pair>, name: string, names: seq<string>)
    requires Distinct(list) && name in names
    requires forall j :: 0 <= j < |list| ==> list[j].0 == name
    ensures Distinct(Map(list, Single))
    ensures forall c :: c in Map(list, Single) ==> KeysAmong(c, names)
  {
    var r := Map(list, Single);
    forall p, q | 0 <= p < q < |r|
      ensures r[p] != r[q]
    {
      assert r[p][0] == list[p] && r[q][0] == list[q];
    }
    forall c | c in r
      ensures KeysAmong(c, names)
    {
      var j :| 0 <= j < |r| && r[j] == c;
      assert c == [list[j]];
    }
  }

  /** Merging a new key from `names` into bases keyed by `earlier` keeps every key among `names`. */
  lemma ProductKeys(acc: seq<Combo>, list: seq<Pair>, name: string, earlier: seq<string>, names: seq<string>)
    requires name in names && forall x :: x in earlier ==> x in names
    requires forall j :: 0 <= j < |list| ==> list[j].0 == name
    requires forall c :: c in acc ==> KeysAmong(c, earlier) && !HasKey(c, name)
    ensures forall c :: c in Product(acc, list) ==> KeysAmong(c, names)
  {
    forall c | c in Product(acc, list)
      ensures KeysAmong(c, names)
    {
      ProductMember(acc, list, c);
      var i, j :| 0 <= i < |acc| && 0 <= j < |list| && c == Put(acc[i], list[j].0, list[j].1);
      assert acc[i] in acc;
      PutNewKey(acc[i], name, list[j].1);
    }
  }

  /**
   * Attributes with distinct names, none repeating a value, give no
   * combination twice.
   */
  lemma CombosDistinct(attrs: seq<Attribute>)
    requires Distinct(Map(attrs, NameOf))
    requires forall k :: 0 <= k < |attrs| ==> Distinct(attrs[k].values)
    ensures Distinct(Combos(Map(attrs, Pairs)))
  {
    var lists, names := Map(attrs, Pairs), Map(attrs, NameOf);
    forall k | 0 <= k < |lists|
      ensures Distinct(lists[k])
    {
      var l := lists[k];
      assert l == Pairs(attrs[k]);
      forall p, q | 0 <= p < q < |l|
        ensures l[p] != l[q]
      {
        assert l[p].1 == attrs[k].values[p] && l[q].1 == attrs[k].values[q];
      }
    }
    CombosDistinctKeys(lists, names);
  }

  // ------------------------------------------------------------ the restart

  const RedBlue: seq<Pair> := [("Color", "Red"), ("Color", "Blue")]
  const NoSizes: seq<Pair> := []
  const Cotton: seq<Pair> := [("Material", "Cotton")]

  /**
   * As written, an attribute without values empties the accumulator, and the
   * next attribute restarts from its own values: Color and the empty Size
   * give nothing, and Material then yields one variant without any colour.
   */
  lemma EmptyAttributeDropsEarlierOnes()
    ensures Combos([RedBlue, NoSizes, Cotton]) == [[("Material", "Cotton")]]
  {
    var lists := [RedBlue, NoSizes, Cotton];
    assert lists[..1] == [RedBlue];
    assert lists[..2] == [RedBlue, NoSizes];
    assert lists[..2][..1] == [RedBlue];
    assert [RedBlue][..0] == [];
    assert Combos([RedBlue]) == Map(RedBlue, Single);
    assert Combos([RedBlue, NoSizes]) == Product(Map(RedBlue, Single), NoSizes);
    ProductCount(Map(RedBlue, Single), NoSizes);
  }

  predicate HasValues(l: seq<Pair>) { |l| > 0 }

  /** The evidently intended combination: attributes without values are skipped. */
  function CombosSkippingEmpty(lists: seq<seq<Pair>>): (r: seq<Combo>)
    ensures |r| == if Filter(lists, HasValues) == [] then 0 else CountProduct(Filter(lists, HasValues))
  {
    var kept := Filter(lists, HasValues);
    if kept == [] then Combos(kept)
    else
      assert AllNonEmpty(kept) by {
        forall j | 0 <= j < |kept| ensures |kept[j]| > 0 { assert kept[j] in kept; }
      }
      CombosCount(kept);
      Combos(kept)
  }

  /**
   * Skipping empty attributes, there is one combination per choice of a
   * value for every attribute that has values, whatever their order.
   */
  lemma SkippingEmptyCount(lists: seq<seq<Pair>>, k: nat)
    requires k < |lists| && HasValues(lists[k])
    ensures |CombosSkippingEmpty(lists)| == CountProduct(Filter(lists, HasValues)) > 0
  {
    var kept := Filter(lists, HasValues);
    assert lists[k] in kept;
    assert AllNonEmpty(kept) by {
      forall j | 0 <= j < |kept| ensures |kept[j]| > 0 { assert kept[j] in kept; }
    }
    CombosCount(kept);
  }

  /** When every attribute has values, skipping empty ones changes nothing. */
  lemma SkippingEmptyAgrees(lists: seq<seq<Pair>>)
    requires AllNonEmpty(lists)
    ensures CombosSkippingEmpty(lists) == Combos(lists)
  {
    assert forall l :: l in lists ==> HasValues(l);
    FilterKeepsAll(lists, HasValues);
  }

  lemma KeptAttributes()
    ensures Filter([RedBlue, NoSizes, Cotton], HasValues) == [RedBlue, Cotton]
  {
    assert [RedBlue, NoSizes, Cotton] == [RedBlue, NoSizes] + [Cotton];
    FilterSnoc([RedBlue, NoSizes], Cotton, HasValues);
    assert [RedBlue, NoSizes] == [RedBlue] + [NoSizes];
    FilterSnoc([RedBlue], NoSizes, HasValues);
    FilterSingleton(RedBlue, HasValues);
  }

  /** On the same three attributes, the intended reading keeps both colours. */
  lemma SkippingEmptyKeepsColours()
    ensures CombosSkippingEmpty([RedBlue, NoSizes, Cotton])
            == [[("Color", "Red"), ("Material", "Cotton")], [("Color", "Blue"), ("Material", "Cotton")]]
  {
    KeptAttributes();
    var red, blue := [("Color", "Red")], [("Color", "Blue")];
    assert [RedBlue, Cotton][..1] == [RedBlue];
    assert [RedBlue][..0] == [];
    assert Combos([RedBlue]) == [red, blue];
    assert Put(red, "Material", "Cotton") == red + [("Material", "Cotton")];
    assert Put(blue, "Material", "Cotton") == blue + [("Material", "Cotton")];
    assert [red, blue][..1] == [red];
    assert Product([red, blue], Cotton) == Product([red], Cotton) + Row(blue, Cotton);
    assert [red][..0] == [];
    assert Product([red], Cotton) == Row(red, Cotton) == [red + [("Material", "Cotton")]];
    assert Row(blue, Cotton) == [blue + [("Material", "Cotton")]];
    assert Combos([RedBlue, Cotton]) == Product([red, blue], Cotton);
    assert CombosSkippingEmpty([RedBlue, NoSizes, Cotton]) == Combos([RedBlue, Cotton]);
    assert red + [("Material", "Cotton")] == [("Color", "Red"), ("Material", "Cotton")];
    assert blue + [("Material", "Cotton")] == [("Color", "Blue"), ("Material", "Cotton")];
  }
}
