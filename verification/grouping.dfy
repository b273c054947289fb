/** Counting equal keys the way the bot does it with a Python dict:
    `grouped.setdefault(key, 0); grouped[key] += 1` over the cart, then
    iterating `grouped.items()`. A dict keeps first-insertion order, so the
    groups come out in the order their keys first occur. */
module Grouping {

  datatype Group<K> = Group(key: K, count: nat)

  function KeysOf<K>(groups: seq<Group<K>>): (ks: seq<K>)
    ensures |ks| == |groups|
    ensures forall i :: 0 <= i < |groups| ==> ks[i] == groups[i].key
  {
    seq(|groups|, i requires 0 <= i < |groups| => groups[i].key)
  }

  predicate Distinct<K(==)>(s: seq<K>) {
    forall i, j :: 0 <= i < j < |s| ==> s[i] != s[j]
  }

  /** How many times `k` occurs in `keys`. */
  function Count<K(==)>(keys: seq<K>, k: K): nat {
    if |keys| == 0 then 0
    else Count(keys[..|keys| - 1], k) + (if keys[|keys| - 1] == k then 1 else 0)
  }

  /** Sum of the counts of all groups. */
  function TotalCount<K>(groups: seq<Group<K>>): nat {
    if |groups| == 0 then 0 else TotalCount(groups[..|groups| - 1]) + groups[|groups| - 1].count
  }

  /** Sum over the groups of `count * w(key)`. */
  function WeightedSum<K>(groups: seq<Group<K>>, w: K -> int): int {
    if |groups| == 0 then 0
    else WeightedSum(groups[..|groups| - 1], w) + groups[|groups| - 1].count * w(groups[|groups| - 1].key)
  }

  /** Sum of `w` over the keys, one term per occurrence. */
  function SumOver<K>(keys: seq<K>, w: K -> int): int {
    if |keys| == 0 then 0 else SumOver(keys[..|keys| - 1], w) + w(keys[|keys| - 1])
  }

  /** Position of the first occurrence of `k` in `keys`. */
  function FirstIndex<K(==)>(keys: seq<K>, k: K): (i: nat)
    requires k in keys
    ensures i < |keys| && keys[i] == k && k !in keys[..i]
  {
    if keys[0] == k then 0
    else
      var j := FirstIndex(keys[1..], k);
      assert keys[..j + 1] == [keys[0]] + keys[1..][..j];
      j + 1
  }

  /** One `grouped[key] += 1` step: bump the group of `k`, or append a new
      group with count 1 at the end when `k` has none yet. */
  function Bump<K(==)>(groups: seq<Group<K>>, k: K): (r: seq<Group<K>>)
    requires Distinct(KeysOf(groups))
    ensures KeysOf(r) == if k in KeysOf(groups) then KeysOf(groups) else KeysOf(groups) + [k]
    ensures forall i :: 0 <= i < |groups| ==>
      r[i].key == groups[i].key && r[i].count == groups[i].count + (if groups[i].key == k then 1 else 0)
    ensures k !in KeysOf(groups) ==> r[|groups|] == Group(k, 1)
  {
    var ks := KeysOf(groups);
    if k in ks then
      var i := FirstIndex(ks, k);
      var r := groups[i := Group(k, groups[i].count + 1)];
      assert KeysOf(r) == ks;
      r
    else
      var r := groups + [Group(k, 1)];
      assert KeysOf(r) == ks + [k];
      r
  }

  /** The groups of `keys` in first-occurrence order. The dict never holds a
      key twice, holds exactly the keys that occur, and its counts add up to
      the number of keys. */
  function Tally<K(==)>(keys: seq<K>): (r: seq<Group<K>>)
    ensures Distinct(KeysOf(r))
    ensures forall i :: 0 <= i < |keys| ==> keys[i] in KeysOf(r)
    ensures forall i :: 0 <= i < |r| ==> r[i].key in keys
    ensures TotalCount(r) == |keys|
  {
    if |keys| == 0 then []
    else
      var prefix := keys[..|keys| - 1];
      var last := keys[|keys| - 1];
      var before := Tally(prefix);
      var r := Bump(before, last);
      BumpKeys(keys, prefix, last, before, r);
      r
  }

  /** Bumping the tally of `prefix` with `last` tallies `prefix + [last]`:
      distinct keys, every key present, nothing else, and one more item. */
  lemma BumpKeys<K>(keys: seq<K>, prefix: seq<K>, last: K, before: seq<Group<K>>, r: seq<Group<K>>)
    requires |keys| > 0 && prefix == keys[..|keys| - 1] && last == keys[|keys| - 1]
    requires Distinct(KeysOf(before))
    requires forall i :: 0 <= i < |prefix| ==> prefix[i] in KeysOf(before)
    requires forall i :: 0 <= i < |before| ==> before[i].key in prefix
    requires TotalCount(before) == |prefix|
    requires r == Bump(before, last)
    ensures Distinct(KeysOf(r))
    ensures forall i :: 0 <= i < |keys| ==> keys[i] in KeysOf(r)
    ensures forall i :: 0 <= i < |r| ==> r[i].key in keys
    ensures TotalCount(r) == |keys|
  {
    forall i | 0 <= i < |keys| - 1 ensures keys[i] in KeysOf(before) {
      assert keys[i] == prefix[i];
    }
    BumpDistinct(before, last);
    BumpCovers(before, last);
    BumpTotal(before, last);
    forall i | 0 <= i < |r| ensures r[i].key in keys {
      assert r[i].key == KeysOf(r)[i];
      if r[i].key != last {
        var j :| 0 <= j < |before| && KeysOf(before)[j] == r[i].key;
        assert before[j].key in prefix;
      }
    }
  }

  lemma BumpDistinct<K>(groups: seq<Group<K>>, k: K)
    requires Distinct(KeysOf(groups))
    ensures Distinct(KeysOf(Bump(groups, k)))
  {
    var ks := KeysOf(groups);
    if k !in ks {
      var ks' := ks + [k];
      forall i, j | 0 <= i < j < |ks'| ensures ks'[i] != ks'[j] {
        if j == |ks| { assert ks'[i] == ks[i]; }
      }
    }
  }

  /** The keys after a bump are the keys before, plus the bumped one. */
  lemma BumpCovers<K>(groups: seq<Group<K>>, k: K)
    requires Distinct(KeysOf(groups))
    ensures k in KeysOf(Bump(groups, k))
    ensures forall x :: x in KeysOf(groups) ==> x in KeysOf(Bump(groups, k))
    ensures forall x :: x in KeysOf(Bump(groups, k)) ==> x in KeysOf(groups) || x == k
  {
  }

  lemma BumpTotal<K>(groups: seq<Group<K>>, k: K)
    requires Distinct(KeysOf(groups))
    ensures TotalCount(Bump(groups, k)) == TotalCount(groups) + 1
  {
    var ks := KeysOf(groups);
    if k in ks {
      var i := FirstIndex(ks, k);
      TotalCountUpdate(groups, i, Group(k, groups[i].count + 1));
    } else {
      var r := groups + [Group(k, 1)];
      assert r[..|r| - 1] == groups;
      assert Bump(groups, k) == r;
    }
  }

  lemma {:induction false} TotalCountUpdate<K>(groups: seq<Group<K>>, i: nat, g: Group<K>)
    requires i < |groups|
    ensures TotalCount(groups[i := g]) == TotalCount(groups) - groups[i].count + g.count
  {
    var n := |groups|;
    var r := groups[i := g];
    assert r[n - 1] == if i == n - 1 then g else groups[n - 1];
    if i == n - 1 {
      assert r[..n - 1] == groups[..n - 1];
    } else {
      TotalCountUpdate(groups[..n - 1], i, g);
      assert r[..n - 1] == groups[..n - 1][i := g];
    }
  }

  lemma {:induction false} WeightedSumUpdate<K>(groups: seq<Group<K>>, i: nat, g: Group<K>, w: K -> int)
    requires i < |groups|
    ensures WeightedSum(groups[i := g], w) == WeightedSum(groups, w) - groups[i].count * w(groups[i].key) + g.count * w(g.key)
  {
    var n := |groups|;
    var r := groups[i := g];
    assert r[n - 1] == if i == n - 1 then g else groups[n - 1];
    if i == n - 1 {
      assert r[..n - 1] == groups[..n - 1];
    } else {
      WeightedSumUpdate(groups[..n - 1], i, g, w);
      assert r[..n - 1] == groups[..n - 1][i := g];
    }
  }

  /** Each group's count is the number of occurrences of its key, and no
      group is empty. */
  lemma {:induction false} TallyCounts<K>(keys: seq<K>)
    ensures forall i :: 0 <= i < |Tally(keys)| ==>
      Tally(keys)[i].count == Count(keys, Tally(keys)[i].key) && Tally(keys)[i].count > 0
  {
    if |keys| > 0 {
      var prefix := keys[..|keys| - 1];
      var last := keys[|keys| - 1];
      TallyCounts(prefix);
      var before := Tally(prefix);
      var r := Tally(keys);
      assert r == Bump(before, last);
      forall i | 0 <= i < |r|
        ensures r[i].count == Count(keys, r[i].key) && r[i].count > 0
      {
        if i < |before| {
        } else {
          assert last !in KeysOf(before);
          assert Count(prefix, last) == 0 by { CountAbsent(prefix, last); }
        }
      }
    }
  }

  lemma {:induction false} CountAbsent<K>(keys: seq<K>, k: K)
    requires k !in keys
    ensures Count(keys, k) == 0
  {
    if |keys| > 0 {
      assert keys[..|keys| - 1] <= keys;
      CountAbsent(keys[..|keys| - 1], k);
    }
  }

  /** Groups appear in the order their keys first occur in the input. */
  lemma {:induction false} TallyOrder<K>(keys: seq<K>)
    ensures forall i, j :: 0 <= i < j < |Tally(keys)| ==>
      FirstIndex(keys, Tally(keys)[i].key) < FirstIndex(keys, Tally(keys)[j].key)
  {
    if |keys| > 0 {
      var prefix := keys[..|keys| - 1];
      var last := keys[|keys| - 1];
      TallyOrder(prefix);
      assert keys == prefix + [last];
      BumpOrder(prefix, last, Tally(prefix));
    }
  }

  /** Bumping keeps the groups in first-occurrence order of the keys seen
      so far, the new key (if any) coming last. */
  lemma BumpOrder<K>(prefix: seq<K>, last: K, before: seq<Group<K>>)
    requires Distinct(KeysOf(before))
    requires forall i :: 0 <= i < |before| ==> before[i].key in prefix
    requires forall i :: 0 <= i < |prefix| ==> prefix[i] in KeysOf(before)
    requires forall i, j :: 0 <= i < j < |before| ==>
      FirstIndex(prefix, before[i].key) < FirstIndex(prefix, before[j].key)
    ensures var r := Bump(before, last);
      forall i, j :: 0 <= i < j < |r| ==>
        r[i].key in prefix + [last] && r[j].key in prefix + [last] &&
        FirstIndex(prefix + [last], r[i].key) < FirstIndex(prefix + [last], r[j].key)
  {
    var r := Bump(before, last);
    var keys := prefix + [last];
    forall i, j | 0 <= i < j < |r|
      ensures r[i].key in keys && r[j].key in keys && FirstIndex(keys, r[i].key) < FirstIndex(keys, r[j].key)
    {
      assert KeysOf(r)[i] == r[i].key && KeysOf(r)[j] == r[j].key;
      assert r[i].key == before[i].key && before[i].key in prefix;
      FirstIndexPrefix(prefix, last, before[i].key);
      if j < |before| {
        assert r[j].key == before[j].key && before[j].key in prefix;
        FirstIndexPrefix(prefix, last, before[j].key);
      } else {
        assert last !in KeysOf(before);
        assert r[j].key == last && last !in prefix;
        FirstIndexNew(prefix, last);
      }
    }
  }

  lemma FirstIndexPrefix<K>(prefix: seq<K>, x: K, k: K)
    requires k in prefix
    ensures FirstIndex(prefix + [x], k) == FirstIndex(prefix, k)
  {
    var s := prefix + [x];
    var i := FirstIndex(prefix, k);
    var j := FirstIndex(s, k);
    assert s[..i] == prefix[..i];
    assert s[i] == k;
    assert forall t :: 0 <= t < j ==> s[..j][t] == s[t];
    assert forall t :: 0 <= t < i ==> s[..i][t] == s[t];
  }

  lemma FirstIndexNew<K>(prefix: seq<K>, x: K)
    requires x !in prefix
    ensures FirstIndex(prefix + [x], x) == |prefix|
  {
    var s := prefix + [x];
    var j := FirstIndex(s, x);
    assert forall t :: 0 <= t < |prefix| ==> s[t] == prefix[t];
  }

  /** Weighing every group by `count * w(key)` gives the same sum as
      weighing every key occurrence by `w`. */
  lemma {:induction false} TallyWeightedSum<K>(keys: seq<K>, w: K -> int)
    ensures WeightedSum(Tally(keys), w) == SumOver(keys, w)
  {
    if |keys| > 0 {
      var prefix := keys[..|keys| - 1];
      var last := keys[|keys| - 1];
      TallyWeightedSum(prefix, w);
      BumpWeightedSum(Tally(prefix), last, w);
    }
  }

  lemma BumpWeightedSum<K>(groups: seq<Group<K>>, k: K, w: K -> int)
    requires Distinct(KeysOf(groups))
    ensures WeightedSum(Bump(groups, k), w) == WeightedSum(groups, w) + w(k)
  {
    var ks := KeysOf(groups);
    if k in ks {
      var i := FirstIndex(ks, k);
      WeightedSumUpdate(groups, i, Group(k, groups[i].count + 1), w);
      assert (groups[i].count + 1) * w(k) == groups[i].count * w(k) + w(k);
    } else {
      var r := groups + [Group(k, 1)];
      assert r[..|r| - 1] == groups;
      assert Bump(groups, k) == r;
    }
  }
}
