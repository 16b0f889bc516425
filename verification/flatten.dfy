/** `dict_to_tuples`: a nested dictionary becomes the list of
    `(path of keys from the root, leaf)` pairs, depth first, in insertion
    order. A Python dict is modelled as its list of entries in insertion order. */
module Flatten {
  import opened Wrappers
  import opened Seqs

  datatype Tree<K, V> = Leaf(value: V) | Dict(entries: seq<Entry<K, V>>)
  datatype Entry<K, V> = Entry(key: K, node: Tree<K, V>)

  type Pair<K, V> = (seq<K>, V)

  /** Python dicts never hold a key twice, at any level. */
  predicate WellFormed<K(==), V>(t: Tree<K, V>)
    decreases t
  {
    match t
    case Leaf(_) => true
    case Dict(entries) =>
      && (forall i, j :: 0 <= i < j < |entries| ==> entries[i].key != entries[j].key)
      && (forall i :: 0 <= i < |entries| ==> WellFormed(entries[i].node))
  }

  /** Puts `k` in front of every path. */
  function Prefixed<K, V>(k: K, pairs: seq<Pair<K, V>>): (r: seq<Pair<K, V>>)
    ensures |r| == |pairs|
    ensures forall i :: 0 <= i < |r| ==> r[i] == ([k] + pairs[i].0, pairs[i].1)
  {
    seq(|pairs|, i requires 0 <= i < |pairs| => ([k] + pairs[i].0, pairs[i].1))
  }

  /** The pairs of the entries of `d` from index `i` on: an entry holding a
      leaf gives one pair, an entry holding a dictionary gives its subtree's
      pairs under its key. */
  function Tuples<K, V>(d: Tree<K, V>, i: nat): seq<Pair<K, V>>
    requires d.Dict? && i <= |d.entries|
    decreases d, |d.entries| - i
  {
    if i == |d.entries| then []
    else
      var e := d.entries[i];
      assert e in d.entries;
      var here := match e.node
        case Leaf(v) => [([e.key], v)]
        case Dict(_) => Prefixed(e.key, Tuples(e.node, 0));
      here + Tuples(d, i + 1)
  }

  /** `dict_to_tuples(d)`. */
  function DictToTuples<K, V>(entries: seq<Entry<K, V>>): seq<Pair<K, V>> {
    Tuples(Dict(entries), 0)
  }

  /** The pairs a single entry contributes. */
  function EntryPairs<K, V>(e: Entry<K, V>): seq<Pair<K, V>> {
    match e.node
    case Leaf(v) => [([e.key], v)]
    case Dict(children) => Prefixed(e.key, DictToTuples(children))
  }

  /** The entries of `d` from `i + j` on are the entries of the suffix from
      `i` on, seen from `j`. */
  lemma {:induction false} TuplesShift<K, V>(es: seq<Entry<K, V>>, i: nat, j: nat)
    requires i + j <= |es|
    ensures Tuples(Dict(es), i + j) == Tuples(Dict(es[i..]), j)
    decreases |es| - i - j
  {
    if i + j < |es| {
      TuplesShift(es, i, j + 1);
      assert es[i..][j] == es[i + j];
    }
  }

  /** One entry in front: its pairs come first. */
  lemma DictToTuplesCons<K, V>(e: Entry<K, V>, es: seq<Entry<K, V>>)
    ensures DictToTuples([e] + es) == EntryPairs(e) + DictToTuples(es)
  {
    TuplesShift([e] + es, 1, 0);
    assert ([e] + es)[1..] == es;
  }

  /** Flattening respects insertion order: the pairs of the earlier entries
      come before those of the later ones. */
  lemma {:induction false} DictToTuplesAppend<K, V>(a: seq<Entry<K, V>>, b: seq<Entry<K, V>>)
    ensures DictToTuples(a + b) == DictToTuples(a) + DictToTuples(b)
    decreases |a|
  {
    if |a| == 0 {
      assert a + b == b;
    } else {
      DictToTuplesCons(a[0], a[1..] + b);
      assert a + b == [a[0]] + (a[1..] + b);
      DictToTuplesAppend(a[1..], b);
      DictToTuplesCons(a[0], a[1..]);
      assert a == [a[0]] + a[1..];
    }
  }

  /** The empty dictionary has no pairs; an entry holding a leaf gives the
      one pair `((key,), leaf)`; an entry holding a dictionary gives that
      dictionary's pairs with the key in front, and nothing when it is empty. */
  lemma SingleEntryTuples<K, V>(k: K, t: Tree<K, V>)
    ensures DictToTuples<K, V>([]) == []
    ensures t.Leaf? ==> DictToTuples([Entry(k, t)]) == [([k], t.value)]
    ensures t.Dict? ==> DictToTuples([Entry(k, t)]) == Prefixed(k, DictToTuples(t.entries))
    ensures DictToTuples<K, V>([Entry(k, Dict([]))]) == []
  {
    var none: seq<Entry<K, V>> := [];
    assert DictToTuples(none) == [];
    DictToTuplesCons(Entry(k, t), none);
    assert [Entry(k, t)] + none == [Entry(k, t)];
    DictToTuplesCons(Entry(k, Dict(none)), none);
    assert [Entry(k, Dict(none))] + none == [Entry(k, Dict(none))];
  }

  /** The number of leaves of `d`'s entries from `i` on, counted without
      building any path. */
  function LeafCount<K, V>(d: Tree<K, V>, i: nat): nat
    requires d.Dict? && i <= |d.entries|
    decreases d, |d.entries| - i
  {
    if i == |d.entries| then 0
    else
      var e := d.entries[i];
      assert e in d.entries;
      (if e.node.Leaf? then 1 else LeafCount(e.node, 0)) + LeafCount(d, i + 1)
  }

  /** There is one pair per leaf: empty dictionaries contribute nothing. */
  lemma {:induction false} TuplesCountLeaves<K, V>(d: Tree<K, V>, i: nat)
    requires d.Dict? && i <= |d.entries|
    ensures |Tuples(d, i)| == LeafCount(d, i)
    decreases d, |d.entries| - i
  {
    if i < |d.entries| {
      var e := d.entries[i];
      assert e in d.entries;
      if e.node.Dict? {
        TuplesCountLeaves(e.node, 0);
      }
      TuplesCountLeaves(d, i + 1);
    }
  }

  /** The index of the entry holding key `k`, found as a dict lookup would. */
  function FindKey<K(==), V>(es: seq<Entry<K, V>>, k: K): (r: Option<nat>)
    ensures r.Some? ==> r.value < |es| && es[r.value].key == k
    ensures r.Some? ==> forall j :: 0 <= j < r.value ==> es[j].key != k
    ensures r.None? ==> forall j :: 0 <= j < |es| ==> es[j].key != k
    decreases |es|
  {
    if |es| == 0 then None
    else if es[0].key == k then Some(0)
    else
      match FindKey(es[1..], k)
      case None => None
      case Some(j) => Some(j + 1)
  }

  /** `d[p[0]][p[1]]...`: the leaf reached by following the path, if any. */
  function LookupPath<K(==), V>(t: Tree<K, V>, p: seq<K>): Option<V>
    decreases |p|
  {
    if |p| == 0 then (if t.Leaf? then Some(t.value) else None)
    else if t.Leaf? then None
    else
      match FindKey(t.entries, p[0])
      case None => None
      case Some(j) => LookupPath(t.entries[j].node, p[1..])
  }

  /** Every pair is a real leaf of the dictionary: following its path from the
      root reaches its value. */
  lemma {:induction false} TuplesSound<K, V>(d: Tree<K, V>, i: nat, n: nat)
    requires d.Dict? && i <= |d.entries| && WellFormed(d)
    requires n < |Tuples(d, i)|
    ensures |Tuples(d, i)[n].0| > 0
    ensures LookupPath(d, Tuples(d, i)[n].0) == Some(Tuples(d, i)[n].1)
    decreases d, |d.entries| - i
  {
    var e := d.entries[i];
    assert e in d.entries;
    TuplesUnfold(d, i);
    KeyFoundAt(d, i);
    var here := EntryPairs(e);
    if n < |here| {
      match e.node
      case Leaf(v) =>
        LookupOneStep(d, [e.key], i);
      case Dict(children) =>
        TuplesSound(e.node, 0, n);
        var q := Tuples(e.node, 0)[n].0;
        assert here[n].0 == [e.key] + q;
        LookupOneStep(d, [e.key] + q, i);
        assert ([e.key] + q)[1..] == q;
    } else {
      TuplesSound(d, i + 1, n - |here|);
    }
  }

  /** Entry `i` contributes its pairs in front of the later entries'. */
  lemma TuplesUnfold<K, V>(d: Tree<K, V>, i: nat)
    requires d.Dict? && i < |d.entries|
    ensures Tuples(d, i) == EntryPairs(d.entries[i]) + Tuples(d, i + 1)
  {
  }

  /** In a well-formed dictionary the key of entry `i` is found at `i`, and
      the entry's own subtree is well-formed. */
  lemma KeyFoundAt<K, V>(d: Tree<K, V>, i: nat)
    requires d.Dict? && i < |d.entries| && WellFormed(d)
    ensures FindKey(d.entries, d.entries[i].key) == Some(i)
    ensures WellFormed(d.entries[i].node)
  {
    var r := FindKey(d.entries, d.entries[i].key);
    assert r.Some? ==> d.entries[r.value].key == d.entries[i].key;
  }

  /** Following a path one step: the first key picks entry `j`. */
  lemma LookupOneStep<K, V>(d: Tree<K, V>, p: seq<K>, j: nat)
    requires d.Dict? && |p| > 0 && FindKey(d.entries, p[0]) == Some(j)
    ensures LookupPath(d, p) == LookupPath(d.entries[j].node, p[1..])
  {
  }

  /** Every leaf reached through entry `i` or a later one is among the pairs. */
  lemma {:induction false} TuplesComplete<K, V>(d: Tree<K, V>, i: nat, p: seq<K>, v: V)
    requires d.Dict? && i <= |d.entries|
    requires |p| > 0 && LookupPath(d, p) == Some(v)
    requires FindKey(d.entries, p[0]).value >= i
    ensures (p, v) in Tuples(d, i)
    decreases d, |d.entries| - i
  {
    var j := FindKey(d.entries, p[0]).value;
    var e := d.entries[i];
    assert e in d.entries;
    TuplesUnfold(d, i);
    if j > i {
      TuplesComplete(d, i + 1, p, v);
    } else {
      var q := p[1..];
      LookupOneStep(d, p, i);
      match e.node
      case Leaf(w) =>
        assert |q| == 0 && w == v;
        OneElement(p);
        assert EntryPairs(e) == [(p, w)];
      case Dict(children) =>
        FirstSplit(p);
        assert |q| > 0;
        TuplesComplete(e.node, 0, q, v);
        var sub := Tuples(e.node, 0);
        var n :| 0 <= n < |sub| && sub[n] == (q, v);
        assert EntryPairs(e)[n] == (p, v);
    }
  }

  /** `dict_to_tuples` lists exactly the leaves of a dictionary, each with its
      path from the root. */
  lemma DictToTuplesLeaves<K, V>(entries: seq<Entry<K, V>>, p: seq<K>, v: V)
    requires WellFormed(Dict(entries))
    ensures (p, v) in DictToTuples(entries) <==> |p| > 0 && LookupPath(Dict(entries), p) == Some(v)
  {
    var d := Dict(entries);
    if (p, v) in DictToTuples(entries) {
      var n :| 0 <= n < |Tuples(d, 0)| && Tuples(d, 0)[n] == (p, v);
      TuplesSound(d, 0, n);
    }
    if |p| > 0 && LookupPath(d, p) == Some(v) {
      TuplesComplete(d, 0, p, v);
    }
  }

  /** The length of `dict_to_tuples(d)` is the number of leaves of `d`. */
  lemma DictToTuplesLength<K, V>(entries: seq<Entry<K, V>>)
    ensures |DictToTuples(entries)| == LeafCount(Dict(entries), 0)
  {
    TuplesCountLeaves(Dict(entries), 0);
  }

  /** Python keys and leaves of the kinds the flattening examples use. */
  datatype Scalar = Int(i: int) | Str(s: string)

  /** The nested example: `{1: {"dog": "apple", "cat": {11: "orange",
      12: "banana", 13: "watermelon"}}}` flattens depth first, in insertion
      order. */
  lemma NestedExample()
    ensures DictToTuples([Entry(Int(1), Dict([
              Entry(Str("dog"), Leaf(Str("apple"))),
              Entry(Str("cat"), Dict([
                Entry(Int(11), Leaf(Str("orange"))),
                Entry(Int(12), Leaf(Str("banana"))),
                Entry(Int(13), Leaf(Str("watermelon")))]))]))])
            == [([Int(1), Str("dog")], Str("apple")),
                ([Int(1), Str("cat"), Int(11)], Str("orange")),
                ([Int(1), Str("cat"), Int(12)], Str("banana")),
                ([Int(1), Str("cat"), Int(13)], Str("watermelon"))]
  {
    var all := DogAndCats();
    NestedInner();
    SingleEntryTuples(Int(1), Dict(NestedEntries()));
    PrefixedFour(Int(1), all);
    assert [Int(1)] + all[0].0 == [Int(1), Str("dog")];
    assert [Int(1)] + all[1].0 == [Int(1), Str("cat"), Int(11)];
    assert [Int(1)] + all[2].0 == [Int(1), Str("cat"), Int(12)];
    assert [Int(1)] + all[3].0 == [Int(1), Str("cat"), Int(13)];
  }

  function FruitEntries(): seq<Entry<Scalar, Scalar>> {
    [Entry(Int(11), Leaf(Str("orange"))),
     Entry(Int(12), Leaf(Str("banana"))),
     Entry(Int(13), Leaf(Str("watermelon")))]
  }

  function NestedEntries(): seq<Entry<Scalar, Scalar>> {
    [Entry(Str("dog"), Leaf(Str("apple"))), Entry(Str("cat"), Dict(FruitEntries()))]
  }

  function CatPairs(): seq<Pair<Scalar, Scalar>> {
    [([Str("cat"), Int(11)], Str("orange")),
     ([Str("cat"), Int(12)], Str("banana")),
     ([Str("cat"), Int(13)], Str("watermelon"))]
  }

  function DogAndCats(): seq<Pair<Scalar, Scalar>> {
    [([Str("dog")], Str("apple"))] + CatPairs()
  }

  lemma NestedCats()
    ensures DictToTuples([Entry(Str("cat"), Dict(FruitEntries()))]) == CatPairs()
  {
    FlatExample3(FruitEntries());
    SingleEntryTuples(Str("cat"), Dict(FruitEntries()));
    assert [Str("cat")] + [Int(11)] == [Str("cat"), Int(11)];
    assert [Str("cat")] + [Int(12)] == [Str("cat"), Int(12)];
    assert [Str("cat")] + [Int(13)] == [Str("cat"), Int(13)];
  }

  lemma NestedInner()
    ensures DictToTuples(NestedEntries()) == DogAndCats()
  {
    var inner := NestedEntries();
    NestedCats();
    DictToTuplesCons(inner[0], [inner[1]]);
    assert inner == [inner[0]] + [inner[1]];
    SingleEntryTuples(Str("dog"), Leaf(Str("apple")));
  }

  lemma PrefixedFour<K, V>(k: K, p: seq<Pair<K, V>>)
    requires |p| == 4
    ensures Prefixed(k, p) == [([k] + p[0].0, p[0].1), ([k] + p[1].0, p[1].1),
                               ([k] + p[2].0, p[2].1), ([k] + p[3].0, p[3].1)]
  {
  }

  lemma FlatExample3(es: seq<Entry<Scalar, Scalar>>)
    requires |es| == 3 && es[0].node.Leaf? && es[1].node.Leaf? && es[2].node.Leaf?
    ensures DictToTuples(es) == [([es[0].key], es[0].node.value),
                                 ([es[1].key], es[1].node.value),
                                 ([es[2].key], es[2].node.value)]
  {
    DictToTuplesAppend([es[0]], es[1..]);
    DictToTuplesAppend([es[1]], es[2..]);
    SingleEntryTuples(es[0].key, es[0].node);
    SingleEntryTuples(es[1].key, es[1].node);
    SingleEntryTuples(es[2].key, es[2].node);
    assert es == [es[0]] + es[1..];
    assert es[1..] == [es[1]] + es[2..];
    assert es[2..] == [es[2]];
  }

  /** The flat example `{"a": 1, "b": 2}` gives one single-key pair per entry;
      `{}` and `{"a": {}}` give nothing. */
  lemma FlatAndEmptyExamples()
    ensures DictToTuples([Entry(Str("a"), Leaf(Int(1))), Entry(Str("b"), Leaf(Int(2)))])
            == [([Str("a")], Int(1)), ([Str("b")], Int(2))]
    ensures DictToTuples<Scalar, Scalar>([]) == []
    ensures DictToTuples<Scalar, Scalar>([Entry(Str("a"), Dict([]))]) == []
  {
    var es := [Entry(Str("a"), Leaf(Int(1))), Entry(Str("b"), Leaf(Int(2)))];
    DictToTuplesAppend([es[0]], [es[1]]);
    assert es == [es[0]] + [es[1]];
    SingleEntryTuples(Str("a"), Leaf(Int(1)));
    SingleEntryTuples(Str("b"), Leaf(Int(2)));
  }
}
