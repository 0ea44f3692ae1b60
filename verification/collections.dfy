/**
 * Python collection idioms shared by the query code: `sum` over floats, list
 * slicing `xs[:n]`, order-preserving filtering, and dicts that group values under
 * hashable keys in first-insertion order (`defaultdict(list)`, `d.get(k, 0) + 1`).
 */
module Collections {
  import opened Json

  /** `sum(xs)` */
  function Sum(xs: seq<real>): real
    decreases |xs|
  {
    if xs == [] then 0.0 else Sum(xs[..|xs| - 1]) + xs[|xs| - 1]
  }

  lemma {:induction false} SumAppend(xs: seq<real>, ys: seq<real>)
    ensures Sum(xs + ys) == Sum(xs) + Sum(ys)
    decreases |ys|
  {
    if ys == [] {
      assert xs + ys == xs;
    } else {
      assert (xs + ys)[..|xs + ys| - 1] == xs + ys[..|ys| - 1];
      SumAppend(xs, ys[..|ys| - 1]);
    }
  }

  /** `xs` is `ys` with some elements left out, the rest in their original order. */
  predicate IsSubsequence<T(==)>(xs: seq<T>, ys: seq<T>)
    decreases |ys|
  {
    if xs == [] then true
    else if ys == [] then false
    else
      || (xs[|xs| - 1] == ys[|ys| - 1] && IsSubsequence(xs[..|xs| - 1], ys[..|ys| - 1]))
      || IsSubsequence(xs, ys[..|ys| - 1])
  }

  lemma {:induction false} SubsequenceExtend<T>(xs: seq<T>, ys: seq<T>, y: T, keep: bool)
    requires IsSubsequence(xs, ys)
    ensures IsSubsequence(if keep then xs + [y] else xs, ys + [y])
  {
    assert (ys + [y])[..|ys|] == ys;
    if keep {
      assert (xs + [y])[..|xs|] == xs;
    } else if xs != [] {
      assert IsSubsequence(xs, (ys + [y])[..|ys + [y]| - 1]);
    }
  }

  /** Python `a == b` between two dict keys: ints, floats and bools compare by value,
      so `1`, `1.0` and `True` are the same key. */
  predicate KeyEq(a: Value, b: Value)
  {
    if IsNumber(a) && IsNumber(b) then NumberOf(a) == NumberOf(b) else a == b
  }

  /** One dict entry: a key and the values collected under it. */
  datatype Bucket<T> = Bucket(key: Value, items: seq<T>)

  /** The position of the entry whose key equals `k`, or `|bs|` when there is none. */
  function FindKey<T>(bs: seq<Bucket<T>>, k: Value): (j: nat)
    ensures j <= |bs|
    ensures j < |bs| ==> KeyEq(bs[j].key, k)
    ensures forall i :: 0 <= i < j ==> !KeyEq(bs[i].key, k)
    decreases |bs|
  {
    if bs == [] then 0
    else if KeyEq(bs[0].key, k) then 0
    else 1 + FindKey(bs[1..], k)
  }

  /** `groups[k].append(x)`: appends to the entry for `k`, or adds a new entry at the
      end; the entry keeps the key object first inserted. */
  function Insert<T>(bs: seq<Bucket<T>>, k: Value, x: T): seq<Bucket<T>>
  {
    var j := FindKey(bs, k);
    if j < |bs| then bs[j := Bucket(bs[j].key, bs[j].items + [x])]
    else bs + [Bucket(k, [x])]
  }

  /** The dict built by inserting every (key, value) pair in order. */
  function GroupAll<T>(es: seq<(Value, T)>): seq<Bucket<T>>
    decreases |es|
  {
    if es == [] then [] else Insert(GroupAll(es[..|es| - 1]), es[|es| - 1].0, es[|es| - 1].1)
  }

  /** The values paired with a key equal to `k`, in order. */
  function ItemsFor<T>(es: seq<(Value, T)>, k: Value): seq<T>
    decreases |es|
  {
    if es == [] then []
    else ItemsFor(es[..|es| - 1], k) + (if KeyEq(es[|es| - 1].0, k) then [es[|es| - 1].1] else [])
  }

  predicate DistinctKeys<T>(bs: seq<Bucket<T>>)
  {
    forall i, j :: 0 <= i < j < |bs| ==> !KeyEq(bs[i].key, bs[j].key)
  }

  /** Total number of values over all entries. */
  function Size<T>(bs: seq<Bucket<T>>): nat
    decreases |bs|
  {
    if bs == [] then 0 else Size(bs[..|bs| - 1]) + |bs[|bs| - 1].items|
  }

  /** Sum of all values over all entries. */
  function Total(bs: seq<Bucket<real>>): real
    decreases |bs|
  {
    if bs == [] then 0.0 else Total(bs[..|bs| - 1]) + Sum(bs[|bs| - 1].items)
  }

  /** The values of the pairs, in order. */
  function Values<T>(es: seq<(Value, T)>): (vs: seq<T>)
    ensures |vs| == |es|
    ensures forall i :: 0 <= i < |es| ==> vs[i] == es[i].1
    decreases |es|
  {
    if es == [] then [] else Values(es[..|es| - 1]) + [es[|es| - 1].1]
  }

  lemma {:induction false} SizeUpdate<T>(bs: seq<Bucket<T>>, j: nat, x: T)
    requires j < |bs|
    ensures Size(bs[j := Bucket(bs[j].key, bs[j].items + [x])]) == Size(bs) + 1
    decreases |bs|
  {
    var bs' := bs[j := Bucket(bs[j].key, bs[j].items + [x])];
    if j < |bs| - 1 {
      assert bs'[..|bs'| - 1] == bs[..|bs| - 1][j := Bucket(bs[j].key, bs[j].items + [x])];
      SizeUpdate(bs[..|bs| - 1], j, x);
    } else {
      assert bs'[..|bs'| - 1] == bs[..|bs| - 1];
    }
  }

  lemma {:induction false} TotalUpdate(bs: seq<Bucket<real>>, j: nat, x: real)
    requires j < |bs|
    ensures Total(bs[j := Bucket(bs[j].key, bs[j].items + [x])]) == Total(bs) + x
    decreases |bs|
  {
    var bs' := bs[j := Bucket(bs[j].key, bs[j].items + [x])];
    if j < |bs| - 1 {
      assert bs'[..|bs'| - 1] == bs[..|bs| - 1][j := Bucket(bs[j].key, bs[j].items + [x])];
      TotalUpdate(bs[..|bs| - 1], j, x);
    } else {
      assert bs'[..|bs'| - 1] == bs[..|bs| - 1];
      SumAppend(bs[j].items, [x]);
    }
  }

  lemma {:induction false} ItemsForNone<T>(es: seq<(Value, T)>, k: Value)
    requires forall i :: 0 <= i < |es| ==> !KeyEq(es[i].0, k)
    ensures ItemsFor(es, k) == []
    decreases |es|
  {
    if es != [] {
      ItemsForNone(es[..|es| - 1], k);
    }
  }

  /** Every key of `es` has an entry in `bs`. */
  predicate Covers<T>(bs: seq<Bucket<T>>, es: seq<(Value, T)>)
  {
    forall i :: 0 <= i < |es| ==> FindKey(bs, es[i].0) < |bs|
  }

  /** Each entry of `bs` holds exactly the values of `es` filed under its key. */
  ghost predicate HoldsItems<T>(bs: seq<Bucket<T>>, es: seq<(Value, T)>)
  {
    forall j :: 0 <= j < |bs| ==> bs[j].items == ItemsFor(es, bs[j].key)
  }

  lemma ItemsForAppend<T>(es: seq<(Value, T)>, k: Value, x: T, key: Value)
    ensures ItemsFor(es + [(k, x)], key) == ItemsFor(es, key) + (if KeyEq(k, key) then [x] else [])
  {
    assert (es + [(k, x)])[..|es|] == es;
  }

  lemma InsertDistinct<T>(bs: seq<Bucket<T>>, k: Value, x: T)
    requires DistinctKeys(bs)
    ensures DistinctKeys(Insert(bs, k, x))
  {
  }

  lemma InsertCovers<T>(bs: seq<Bucket<T>>, es: seq<(Value, T)>, k: Value, x: T)
    requires Covers(bs, es)
    ensures Covers(Insert(bs, k, x), es + [(k, x)])
  {
    var bs' := Insert(bs, k, x);
    forall i | 0 <= i < |es| + 1
      ensures FindKey(bs', (es + [(k, x)])[i].0) < |bs'|
    {
      if i < |es| {
        var m := FindKey(bs, es[i].0);
        assert bs'[m].key == bs[m].key;
        assert KeyEq(bs'[m].key, es[i].0);
      } else {
        var J := FindKey(bs, k);
        assert KeyEq(bs'[J].key, k);
      }
    }
  }

  lemma InsertHolds<T>(bs: seq<Bucket<T>>, es: seq<(Value, T)>, k: Value, x: T)
    requires DistinctKeys(bs) && Covers(bs, es) && HoldsItems(bs, es)
    ensures HoldsItems(Insert(bs, k, x), es + [(k, x)])
  {
    var J := FindKey(bs, k);
    var bs' := Insert(bs, k, x);
    forall j | 0 <= j < |bs'|
      ensures bs'[j].items == ItemsFor(es + [(k, x)], bs'[j].key)
    {
      ItemsForAppend(es, k, x, bs'[j].key);
      if j < |bs| && j == J {
        assert KeyEq(k, bs[J].key);
      } else if j < |bs| {
        assert !KeyEq(k, bs[j].key);
      } else {
        forall i | 0 <= i < |es|
          ensures !KeyEq(es[i].0, k)
        {
          var m := FindKey(bs, es[i].0);
          assert KeyEq(bs[m].key, es[i].0);
        }
        ItemsForNone(es, k);
      }
    }
  }

  lemma InsertNonEmpty<T>(bs: seq<Bucket<T>>, k: Value, x: T)
    requires forall j :: 0 <= j < |bs| ==> bs[j].items != []
    ensures forall j :: 0 <= j < |Insert(bs, k, x)| ==> Insert(bs, k, x)[j].items != []
  {
  }

  lemma InsertSize<T>(bs: seq<Bucket<T>>, k: Value, x: T)
    ensures Size(Insert(bs, k, x)) == Size(bs) + 1
  {
    var J := FindKey(bs, k);
    if J < |bs| {
      SizeUpdate(bs, J, x);
    } else {
      assert Insert(bs, k, x)[..|bs|] == bs;
    }
  }

  /**
   * Grouping keeps every value exactly once: the entries have pairwise different
   * keys, each entry holds precisely the values whose key equals its own, in their
   * original order, every key has an entry, and the entry sizes add up to the number
   * of pairs.
   */
  lemma {:induction false} GroupAllSpec<T>(es: seq<(Value, T)>)
    ensures DistinctKeys(GroupAll(es))
    ensures HoldsItems(GroupAll(es), es)
    ensures Covers(GroupAll(es), es)
    ensures Size(GroupAll(es)) == |es|
    ensures forall j :: 0 <= j < |GroupAll(es)| ==> GroupAll(es)[j].items != []
    decreases |es|
  {
    if es != [] {
      var front := es[..|es| - 1];
      var (k, x) := es[|es| - 1];
      GroupAllSpec(front);
      var gs := GroupAll(front);
      assert front + [(k, x)] == es;
      InsertDistinct(gs, k, x);
      InsertCovers(gs, front, k, x);
      InsertHolds(gs, front, k, x);
      InsertSize(gs, k, x);
      InsertNonEmpty(gs, k, x);
    }
  }

  /** Grouping floats loses none of them: the entry sums add up to the sum of all values. */
  lemma {:induction false} GroupAllTotal(es: seq<(Value, real)>)
    ensures Total(GroupAll(es)) == Sum(Values(es))
    decreases |es|
  {
    if es != [] {
      var front := es[..|es| - 1];
      var (k, x) := es[|es| - 1];
      var gs := GroupAll(front);
      GroupAllTotal(front);
      var J := FindKey(gs, k);
      if J < |gs| {
        TotalUpdate(gs, J, x);
      } else {
        assert (gs + [Bucket(k, [x])])[..|gs|] == gs;
        assert Sum([x]) == x;
      }
      assert Values(es)[..|es| - 1] == Values(front);
    }
  }

  /** An entry whose values are not empty has a key that some pair carries. */
  lemma {:induction false} ItemsForNonEmpty<T>(es: seq<(Value, T)>, k: Value)
    requires ItemsFor(es, k) != []
    ensures exists i :: 0 <= i < |es| && KeyEq(es[i].0, k)
    decreases |es|
  {
    var front := es[..|es| - 1];
    if !KeyEq(es[|es| - 1].0, k) {
      ItemsForNonEmpty(front, k);
      var i :| 0 <= i < |front| && KeyEq(front[i].0, k);
      assert es[i] == front[i];
    }
  }

  /** The keys of a dict, in insertion order. */
  function Keys<T>(bs: seq<Bucket<T>>): (ks: seq<Value>)
    ensures |ks| == |bs|
    ensures forall j :: 0 <= j < |bs| ==> ks[j] == bs[j].key
    decreases |bs|
  {
    if bs == [] then [] else Keys(bs[..|bs| - 1]) + [bs[|bs| - 1].key]
  }

  /** Each key with the number of values filed under it. */
  function Counts<T>(bs: seq<Bucket<T>>): (cs: seq<(Value, nat)>)
    ensures |cs| == |bs|
    ensures forall j :: 0 <= j < |bs| ==> cs[j] == (bs[j].key, |bs[j].items|)
    decreases |bs|
  {
    if bs == [] then [] else Counts(bs[..|bs| - 1]) + [(bs[|bs| - 1].key, |bs[|bs| - 1].items|)]
  }

  function CountTotal(cs: seq<(Value, nat)>): nat
    decreases |cs|
  {
    if cs == [] then 0 else CountTotal(cs[..|cs| - 1]) + cs[|cs| - 1].1
  }

  lemma {:induction false} CountTotalIsSize<T>(bs: seq<Bucket<T>>)
    ensures CountTotal(Counts(bs)) == Size(bs)
    decreases |bs|
  {
    if bs != [] {
      CountTotalIsSize(bs[..|bs| - 1]);
      assert Counts(bs)[..|bs| - 1] == Counts(bs[..|bs| - 1]);
    }
  }
}
