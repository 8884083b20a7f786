/** MongoDB's `$group` stage with the accumulators `{$sum: 1}` and
    `{$sum: <value>}`, as a left fold over the documents that reach it. One
    bucket per distinct key, in the order the keys are first seen. */
module Grouping {
  import opened Domain

  /** A document reaching `$group`: its group key and the value it sums. */
  datatype Entry<K> = Entry(key: K, value: int)

  /** A document leaving `$group`: the key, `$sum: 1` and `$sum: value`. */
  datatype Bucket<K> = Bucket(key: K, count: nat, sum: int)

  /** The entries built from `xs` by a key and a value projection. */
  function EntriesBy<T, K>(xs: seq<T>, key: T -> K, value: T -> int): (r: seq<Entry<K>>)
    ensures |r| == |xs|
    ensures forall i :: 0 <= i < |xs| ==> r[i] == Entry(key(xs[i]), value(xs[i]))
  {
    seq(|xs|, i requires 0 <= i < |xs| => Entry(key(xs[i]), value(xs[i])))
  }

  /** The keys of the entries, in order. */
  function Keys<K>(es: seq<Entry<K>>): (r: seq<K>)
    ensures |r| == |es|
    ensures forall i :: 0 <= i < |es| ==> r[i] == es[i].key
  {
    seq(|es|, i requires 0 <= i < |es| => es[i].key)
  }

  /** Reference: how many entries have key `k`. */
  function Count<K(==)>(es: seq<Entry<K>>, k: K): nat
  {
    if es == [] then 0
    else Count(es[..|es| - 1], k) + (if es[|es| - 1].key == k then 1 else 0)
  }

  /** Reference: the sum of the values of the entries with key `k`. */
  function Total<K(==)>(es: seq<Entry<K>>, k: K): int
  {
    if es == [] then 0
    else Total(es[..|es| - 1], k) + (if es[|es| - 1].key == k then es[|es| - 1].value else 0)
  }

  /** Position of the bucket with key `k`, if there is one. */
  function BucketIndex<K(==)>(bs: seq<Bucket<K>>, k: K): (r: Option<nat>)
    ensures r.Some? ==> r.value < |bs| && bs[r.value].key == k
    ensures r.None? ==> forall i :: 0 <= i < |bs| ==> bs[i].key != k
  {
    if bs == [] then None
    else if bs[0].key == k then Some(0)
    else match BucketIndex(bs[1..], k)
      case None => None
      case Some(i) => Some(i + 1)
  }

  /** One document folded into the buckets. */
  function AddEntry<K(==)>(bs: seq<Bucket<K>>, e: Entry<K>): seq<Bucket<K>>
  {
    match BucketIndex(bs, e.key)
    case Some(i) => bs[i := Bucket(e.key, bs[i].count + 1, bs[i].sum + e.value)]
    case None => bs + [Bucket(e.key, 1, e.value)]
  }

  /** The `$group` stage over all its input documents. */
  function GroupBy<K(==)>(es: seq<Entry<K>>): seq<Bucket<K>>
  {
    if es == [] then [] else AddEntry(GroupBy(es[..|es| - 1]), es[|es| - 1])
  }

  predicate KeysDistinct<K(==)>(bs: seq<Bucket<K>>)
  {
    forall i, j :: 0 <= i < j < |bs| ==> bs[i].key != bs[j].key
  }

  predicate HasBucket<K(==)>(bs: seq<Bucket<K>>, k: K)
  {
    exists i :: 0 <= i < |bs| && bs[i].key == k
  }

  /** The buckets are exactly the per-key count and sum of the entries: keys
      are distinct, a key has a bucket iff some entry has it, and each bucket
      holds that key's count and total. */
  ghost predicate Summarises<K(!new)>(bs: seq<Bucket<K>>, es: seq<Entry<K>>)
  {
    && KeysDistinct(bs)
    && (forall i :: 0 <= i < |bs| ==> bs[i].count == Count(es, bs[i].key) && bs[i].sum == Total(es, bs[i].key))
    && (forall k :: HasBucket(bs, k) <==> Count(es, k) > 0)
  }

  lemma CountSnoc<K>(es: seq<Entry<K>>, e: Entry<K>, k: K)
    ensures Count(es + [e], k) == Count(es, k) + (if e.key == k then 1 else 0)
    ensures Total(es + [e], k) == Total(es, k) + (if e.key == k then e.value else 0)
  {
    assert (es + [e])[..|es|] == es;
  }

  /** A key with no entries sums to zero. */
  lemma {:induction false} AbsentKeyTotal<K>(es: seq<Entry<K>>, k: K)
    requires Count(es, k) == 0
    ensures Total(es, k) == 0
  {
    if es != [] {
      AbsentKeyTotal(es[..|es| - 1], k);
    }
  }

  /** Folding one more entry keeps the buckets a summary of the entries. */
  lemma AddEntrySummarises<K(!new)>(bs: seq<Bucket<K>>, es: seq<Entry<K>>, e: Entry<K>)
    requires Summarises(bs, es)
    ensures Summarises(AddEntry(bs, e), es + [e])
  {
    var es' := es + [e];
    var bs' := AddEntry(bs, e);
    forall k ensures Count(es', k) == Count(es, k) + (if e.key == k then 1 else 0)
      && Total(es', k) == Total(es, k) + (if e.key == k then e.value else 0)
    {
      CountSnoc(es, e, k);
    }
    match BucketIndex(bs, e.key)
    case Some(i) =>
      forall k ensures HasBucket(bs', k) <==> Count(es', k) > 0 {
        if HasBucket(bs, k) {
          var j :| 0 <= j < |bs| && bs[j].key == k;
          assert bs'[j].key == k;
        }
        if HasBucket(bs', k) {
          var j :| 0 <= j < |bs'| && bs'[j].key == k;
          assert bs[j].key == k;
        }
      }
    case None =>
      assert !HasBucket(bs, e.key);
      assert Count(es, e.key) == 0;
      AbsentKeyTotal(es, e.key);
      assert bs'[|bs|] == Bucket(e.key, 1, e.value);
      forall k ensures HasBucket(bs', k) <==> Count(es', k) > 0 {
        if HasBucket(bs, k) {
          var j :| 0 <= j < |bs| && bs[j].key == k;
          assert bs'[j].key == k;
        }
        if HasBucket(bs', k) && k != e.key {
          var j :| 0 <= j < |bs'| && bs'[j].key == k;
          assert bs[j].key == k;
        }
        if k == e.key {
          assert bs'[|bs|].key == k;
        }
      }
  }

  /** `$group` produces exactly the per-key counts and sums of its input. */
  lemma {:induction false} GroupBySpec<K(!new)>(es: seq<Entry<K>>)
    ensures Summarises(GroupBy(es), es)
  {
    if es != [] {
      var init := es[..|es| - 1];
      GroupBySpec(init);
      AddEntrySummarises(GroupBy(init), init, es[|es| - 1]);
      assert init + [es[|es| - 1]] == es;
    }
  }

  /** The count of key `k` is its multiplicity among the keys. */
  lemma {:induction false} CountMultiplicity<K>(es: seq<Entry<K>>, k: K)
    ensures Count(es, k) == multiset(Keys(es))[k]
  {
    if es != [] {
      var init := es[..|es| - 1];
      CountMultiplicity(init, k);
      assert Keys(es) == Keys(init) + [es[|es| - 1].key];
    }
  }

  /** Sum of the `count` fields. */
  function CountSum<K>(bs: seq<Bucket<K>>): int
  {
    if bs == [] then 0 else bs[0].count + CountSum(bs[1..])
  }

  lemma {:induction false} CountSumUpdate<K>(bs: seq<Bucket<K>>, i: nat, b: Bucket<K>)
    requires i < |bs|
    ensures CountSum(bs[i := b]) == CountSum(bs) - bs[i].count + b.count
  {
    if i > 0 {
      CountSumUpdate(bs[1..], i - 1, b);
      assert bs[i := b][1..] == bs[1..][i - 1 := b];
    }
  }

  lemma {:induction false} CountSumAppend<K>(bs: seq<Bucket<K>>, b: Bucket<K>)
    ensures CountSum(bs + [b]) == CountSum(bs) + b.count
  {
    if bs != [] {
      CountSumAppend(bs[1..], b);
      assert (bs + [b])[1..] == bs[1..] + [b];
    }
  }

  /** Every input document lands in exactly one bucket: the counts add up to
      the number of documents. */
  lemma {:induction false} GroupByCountSum<K>(es: seq<Entry<K>>)
    ensures CountSum(GroupBy(es)) == |es|
  {
    if es != [] {
      var init := es[..|es| - 1];
      var e := es[|es| - 1];
      var bs := GroupBy(init);
      GroupByCountSum(init);
      match BucketIndex(bs, e.key)
      case Some(i) => CountSumUpdate(bs, i, Bucket(e.key, bs[i].count + 1, bs[i].sum + e.value));
      case None => CountSumAppend(bs, Bucket(e.key, 1, e.value));
    }
  }

  lemma EntriesBySnoc<T, K>(xs: seq<T>, x: T, key: T -> K, value: T -> int)
    ensures EntriesBy(xs + [x], key, value) == EntriesBy(xs, key, value) + [Entry(key(x), value(x))]
  {
  }
}
