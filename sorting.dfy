/** Python's built-in `sorted(xs, key=k, reverse=desc)`: a stable sort. It is modelled
    as the order in which the input positions appear in the output, built by insertion. */
module Sorting {

  /** Position i goes before position j: a strictly better key (larger when `desc`,
      smaller otherwise), or an equal key and an earlier input position (stability). */
  predicate Before(keys: seq<real>, desc: bool, i: nat, j: nat)
    requires i < |keys| && j < |keys|
  {
    (if desc then keys[i] > keys[j] else keys[i] < keys[j]) || (keys[i] == keys[j] && i < j)
  }

  /** `order` lists input positions in output order, each one strictly before the next. */
  ghost predicate InOrder(keys: seq<real>, desc: bool, order: seq<nat>) {
    && (forall k :: 0 <= k < |order| ==> order[k] < |keys|)
    && (forall a, b :: 0 <= a < b < |order| ==> Before(keys, desc, order[a], order[b]))
  }

  /** Inserts position `i` in front of the first position it goes before. */
  function Insert(keys: seq<real>, desc: bool, order: seq<nat>, i: nat): (r: seq<nat>)
    requires i < |keys| && i !in order
    requires InOrder(keys, desc, order)
    ensures |r| == |order| + 1
    ensures forall x :: x in r <==> x in order || x == i
    ensures InOrder(keys, desc, r)
  {
    if order == [] then [i]
    else if Before(keys, desc, i, order[0]) then [i] + order
    else
      var rest := Insert(keys, desc, order[1..], i);
      assert forall b :: 0 <= b < |rest| ==> Before(keys, desc, order[0], rest[b]) by {
        forall b | 0 <= b < |rest| ensures Before(keys, desc, order[0], rest[b]) {
          if rest[b] != i {
            assert rest[b] in order[1..];
            var c :| 0 <= c < |order[1..]| && order[1..][c] == rest[b];
            assert order[c + 1] == rest[b];
          }
        }
      }
      [order[0]] + rest
  }

  /** The sorted order of the first n positions. */
  function OrderOfPrefix(keys: seq<real>, desc: bool, n: nat): (r: seq<nat>)
    requires n <= |keys|
    ensures |r| == n
    ensures forall x: nat :: x in r <==> x < n
    ensures InOrder(keys, desc, r)
  {
    if n == 0 then [] else Insert(keys, desc, OrderOfPrefix(keys, desc, n - 1), n - 1)
  }

  /** The positions of `keys` in the order `sorted(..., reverse=desc)` outputs them:
      every position exactly once, keys ordered, equal keys in input order. */
  function StableOrder(keys: seq<real>, desc: bool): (order: seq<nat>)
    ensures |order| == |keys|
    ensures forall x: nat :: x in order <==> x < |keys|
    ensures forall k :: 0 <= k < |order| ==> order[k] < |keys|
    ensures forall a, b :: 0 <= a < b < |order| ==>
              (if desc then keys[order[a]] >= keys[order[b]] else keys[order[a]] <= keys[order[b]])
    ensures forall a, b :: 0 <= a < b < |order| && keys[order[a]] == keys[order[b]] ==>
              order[a] < order[b]
  {
    OrderOfPrefix(keys, desc, |keys|)
  }

  function KeysOf<T>(xs: seq<T>, key: T -> real): (ks: seq<real>)
    ensures |ks| == |xs| && forall i :: 0 <= i < |xs| ==> ks[i] == key(xs[i])
  {
    seq(|xs|, i requires 0 <= i < |xs| => key(xs[i]))
  }

  /** The elements of `xs` at the positions `order` lists. */
  function Pick<T>(xs: seq<T>, order: seq<nat>): (r: seq<T>)
    requires forall k :: 0 <= k < |order| ==> order[k] < |xs|
    ensures |r| == |order| && forall k :: 0 <= k < |order| ==> r[k] == xs[order[k]]
  {
    seq(|order|, k requires 0 <= k < |order| => xs[order[k]])
  }

  /** Picking one more position appends that element. */
  lemma PickSnoc<T>(xs: seq<T>, order: seq<nat>, i: nat)
    requires forall k :: 0 <= k < |order| ==> order[k] < |xs|
    requires i < |xs|
    ensures Pick(xs, order + [i]) == Pick(xs, order) + [xs[i]]
  {
    assert forall k :: 0 <= k < |order| ==> (order + [i])[k] == order[k];
  }

  /** Picking every position at least once keeps every element. */
  lemma PickCovers<T>(xs: seq<T>, order: seq<nat>)
    requires forall k :: 0 <= k < |order| ==> order[k] < |xs|
    requires forall i: nat :: i < |xs| ==> i in order
    ensures forall x :: x in xs ==> x in Pick(xs, order)
  {
    var r := Pick(xs, order);
    forall x | x in xs ensures x in r {
      var i: nat :| i < |xs| && xs[i] == x;
      assert i in order;
      var k :| 0 <= k < |order| && order[k] == i;
      assert r[k] == x;
    }
  }

  /** `sorted(xs, key=key, reverse=desc)`. */
  function SortedBy<T>(xs: seq<T>, key: T -> real, desc: bool): (r: seq<T>)
    ensures |r| == |xs|
  {
    Pick(xs, StableOrder(KeysOf(xs, key), desc))
  }

  /** Dropping the first position of an order keeps it in order. */
  lemma InOrderTail(keys: seq<real>, desc: bool, order: seq<nat>)
    requires order != [] && InOrder(keys, desc, order)
    ensures InOrder(keys, desc, order[1..])
  {
    assert forall k :: 0 <= k < |order| - 1 ==> order[1..][k] == order[k + 1];
  }

  /** Insertion places the new position at a single point `p` of the old order. */
  lemma {:induction false} InsertSplits(keys: seq<real>, desc: bool, order: seq<nat>, i: nat) returns (p: nat)
    requires i < |keys| && i !in order
    requires InOrder(keys, desc, order)
    ensures p <= |order| && Insert(keys, desc, order, i) == order[..p] + [i] + order[p..]
  {
    if order == [] || Before(keys, desc, i, order[0]) {
      p := 0;
      assert order[..0] == [] && order[0..] == order;
    } else {
      var tail := order[1..];
      InOrderTail(keys, desc, order);
      var q := InsertSplits(keys, desc, tail, i);
      p := q + 1;
      assert order[..p] == [order[0]] + tail[..q];
      assert order[p..] == tail[q..];
    }
  }

  /** Picking along two position lists in turn picks along their concatenation. */
  lemma PickAppend<T>(xs: seq<T>, a: seq<nat>, b: seq<nat>)
    requires forall k :: 0 <= k < |a| ==> a[k] < |xs|
    requires forall k :: 0 <= k < |b| ==> b[k] < |xs|
    ensures Pick(xs, a + b) == Pick(xs, a) + Pick(xs, b)
  {
    assert forall k :: 0 <= k < |a + b| ==> (a + b)[k] == if k < |a| then a[k] else b[k - |a|];
  }

  /** Picking with one more position, wherever it sits, adds that element once. */
  lemma PickSplitMultiset<T>(xs: seq<T>, o: seq<nat>, p: nat, i: nat)
    requires forall k :: 0 <= k < |o| ==> o[k] < |xs|
    requires p <= |o| && i < |xs|
    ensures multiset(Pick(xs, o[..p] + [i] + o[p..])) == multiset(Pick(xs, o)) + multiset{xs[i]}
  {
    var a, b := o[..p], o[p..];
    assert a + b == o;
    PickAppend(xs, a, b);
    PickAppend(xs, a + [i], b);
    PickAppend(xs, a, [i]);
    var pa, pb := Pick(xs, a), Pick(xs, b);
    assert Pick(xs, [i]) == [xs[i]];
    assert Pick(xs, o[..p] + [i] + o[p..]) == pa + [xs[i]] + pb;
    assert Pick(xs, o) == pa + pb;
  }

  /** Sorting the first n positions picks the first n elements, each as often. */
  lemma {:induction false} PickPrefixMultiset<T>(xs: seq<T>, keys: seq<real>, desc: bool, n: nat)
    requires |keys| == |xs| && n <= |xs|
    ensures multiset(Pick(xs, OrderOfPrefix(keys, desc, n))) == multiset(xs[..n])
  {
    if n > 0 {
      var o := OrderOfPrefix(keys, desc, n - 1);
      PickPrefixMultiset(xs, keys, desc, n - 1);
      var p := InsertSplits(keys, desc, o, n - 1);
      assert OrderOfPrefix(keys, desc, n) == o[..p] + [n - 1] + o[p..];
      PickSplitMultiset(xs, o, p, n - 1);
      PrefixMultiset(xs, n);
    }
  }

  /** One more element of the prefix adds it once. */
  lemma PrefixMultiset<T>(xs: seq<T>, n: nat)
    requires 0 < n <= |xs|
    ensures multiset(xs[..n]) == multiset(xs[..n - 1]) + multiset{xs[n - 1]}
  {
    assert xs[..n] == xs[..n - 1] + [xs[n - 1]];
  }

  /** The sorted list is a permutation of the input: the same elements, each as often,
      so in particular exactly the input's elements. */
  lemma SortedByMembers<T(!new)>(xs: seq<T>, key: T -> real, desc: bool)
    ensures multiset(SortedBy(xs, key, desc)) == multiset(xs)
    ensures forall x :: x in SortedBy(xs, key, desc) <==> x in xs
  {
    PickCovers(xs, StableOrder(KeysOf(xs, key), desc));
    PickPrefixMultiset(xs, KeysOf(xs, key), desc, |xs|);
    assert xs[..|xs|] == xs;
  }

  /** `r` is in key order, descending when `desc`. */
  predicate Ordered<T>(r: seq<T>, key: T -> real, desc: bool) {
    forall a, b :: 0 <= a < b < |r| ==> if desc then key(r[a]) >= key(r[b]) else key(r[a]) <= key(r[b])
  }

  /** The sorted list is in key order. */
  lemma SortedByOrder<T>(xs: seq<T>, key: T -> real, desc: bool)
    ensures Ordered(SortedBy(xs, key, desc), key, desc)
  {
    PickCovers(xs, StableOrder(KeysOf(xs, key), desc));
  }
}
