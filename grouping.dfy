/**
 * The group partitioner: buckets the surviving top-level blocks by their own
 * `group` tag (`None` is the untagged bucket). A nested object field is
 * bucketed by its own tag; the tags of its children play no part.
 */
module Grouping {
  import opened Wrappers
  import opened FormTypes

  type GroupKey = Option<string>

  ghost predicate NoDup<T(!new)>(s: seq<T>)
  {
    forall x :: multiset(s)[x] <= 1
  }

  /** The group keys of `bs`, each once, in order of first appearance. */
  function GroupKeys(bs: seq<FormBlock>): (r: seq<GroupKey>)
    ensures NoDup(r)
    ensures forall k {:trigger k in r} :: k in r <==> exists b {:trigger b in bs} :: b in bs && b.group == k
  {
    if bs == [] then []
    else
      var last := bs[|bs| - 1];
      var rest := GroupKeys(bs[..|bs| - 1]);
      assert bs == bs[..|bs| - 1] + [last];
      KeysOfSnoc(bs, rest);
      if last.group in rest then rest
      else rest + [last.group]
  }

  /** The position of the first block tagged `k`, or `|bs|` when no block is. */
  function FirstSeen(bs: seq<FormBlock>, k: GroupKey): (r: nat)
    ensures r <= |bs|
    ensures r < |bs| ==> bs[r].group == k
    ensures forall i :: 0 <= i < r ==> bs[i].group != k
  {
    if bs == [] then 0
    else if bs[0].group == k then 0
    else
      var r := 1 + FirstSeen(bs[1..], k);
      assert forall i :: 1 <= i < r ==> bs[i] == bs[1..][i - 1];
      r
  }

  /** The keys come in the order in which their first blocks appear in `bs`. */
  predicate InAppearanceOrder(bs: seq<FormBlock>, keys: seq<GroupKey>)
  {
    forall i, j :: 0 <= i < j < |keys| ==> FirstSeen(bs, keys[i]) < FirstSeen(bs, keys[j])
  }

  /** `GroupKeys` lists the tags in order of first appearance. */
  lemma {:induction false} GroupKeysInAppearance(bs: seq<FormBlock>)
    ensures InAppearanceOrder(bs, GroupKeys(bs))
  {
    if bs != [] {
      var init, last := bs[..|bs| - 1], bs[|bs| - 1];
      var rest := GroupKeys(init);
      GroupKeysInAppearance(init);
      assert bs == init + [last];
      forall i | 0 <= i < |rest| ensures FirstSeen(bs, rest[i]) == FirstSeen(init, rest[i]) < |init| {
        assert rest[i] in rest;
        var b :| b in init && b.group == rest[i];
        SeenInPrefix(init, last, rest[i], b);
      }
      if last.group !in rest {
        forall i | 0 <= i < |init| ensures init[i].group != last.group {
          assert init[i] in init;
        }
        UnseenInPrefix(init, last);
        var r := rest + [last.group];
        assert forall i :: 0 <= i < |rest| ==> r[i] == rest[i];
      }
    }
  }

  /** A tag already carried by a block of `init` is first seen at the same place after appending. */
  lemma SeenInPrefix(init: seq<FormBlock>, last: FormBlock, k: GroupKey, b: FormBlock)
    requires b in init && b.group == k
    ensures FirstSeen(init + [last], k) == FirstSeen(init, k) < |init|
  {
    var p, q := FirstSeen(init, k), FirstSeen(init + [last], k);
    var m :| 0 <= m < |init| && init[m] == b;
    assert p <= m;
    assert (init + [last])[p] == init[p];
  }

  /** The tag of an appended block that no earlier block carries is first seen at its position. */
  lemma UnseenInPrefix(init: seq<FormBlock>, last: FormBlock)
    requires forall i :: 0 <= i < |init| ==> init[i].group != last.group
    ensures FirstSeen(init + [last], last.group) == |init|
  {
    var s := init + [last];
    assert s[|init|] == last;
    assert forall i :: 0 <= i < |init| ==> s[i] == init[i];
  }

  /** Appending one block adds at most its own tag to the keys. */
  lemma KeysOfSnoc(bs: seq<FormBlock>, rest: seq<GroupKey>)
    requires bs != []
    requires forall k {:trigger k in rest} :: k in rest <==> exists b {:trigger b in bs[..|bs| - 1]} :: b in bs[..|bs| - 1] && b.group == k
    ensures forall k {:trigger k in rest} :: k in rest || k == bs[|bs| - 1].group <==> exists b {:trigger b in bs} :: b in bs && b.group == k
  {
    var init, last := bs[..|bs| - 1], bs[|bs| - 1];
    assert bs == init + [last];
    assert last in bs;
    forall k ensures k in rest || k == last.group <==> exists b {:trigger b in bs} :: b in bs && b.group == k {
      if k in rest {
        var b :| b in init && b.group == k;
        assert b in bs;
      }
    }
  }

  /** The bucket of `k`: the blocks tagged `k`, in input order. */
  function Select(bs: seq<FormBlock>, k: GroupKey): (r: seq<FormBlock>)
    ensures forall x {:trigger x in r} {:trigger x in bs} :: x in r <==> x in bs && x.group == k
    ensures forall x {:trigger multiset(r)[x]} {:trigger multiset(bs)[x]} ::
              multiset(r)[x] == if x.group == k then multiset(bs)[x] else 0
  {
    if bs == [] then []
    else
      assert bs == [bs[0]] + bs[1..];
      (if bs[0].group == k then [bs[0]] else []) + Select(bs[1..], k)
  }

  /** The buckets of the keys `ks`, one after another. */
  function SelectAll(bs: seq<FormBlock>, ks: seq<GroupKey>): seq<FormBlock>
  {
    if ks == [] then [] else Select(bs, ks[0]) + SelectAll(bs, ks[1..])
  }

  lemma {:induction false} SelectAllCount(bs: seq<FormBlock>, ks: seq<GroupKey>, x: FormBlock)
    requires NoDup(ks)
    ensures multiset(SelectAll(bs, ks))[x] == if x.group in ks then multiset(bs)[x] else 0
  {
    if ks != [] {
      assert ks == [ks[0]] + ks[1..];
      assert NoDup(ks[1..]) by {
        forall y ensures multiset(ks[1..])[y] <= 1 {
          assert multiset(ks)[y] == multiset([ks[0]])[y] + multiset(ks[1..])[y];
        }
      }
      SelectAllCount(bs, ks[1..], x);
      if x.group == ks[0] {
        assert multiset(ks)[ks[0]] == 1 + multiset(ks[1..])[ks[0]];
        assert x.group !in ks[1..];
      }
    }
  }

  /**
   * Partition: buckets for a duplicate-free list of keys that covers every
   * tag hold each block exactly as often as the input does.
   */
  lemma BucketsPartition(bs: seq<FormBlock>, ks: seq<GroupKey>)
    requires NoDup(ks)
    requires forall b :: b in bs ==> b.group in ks
    ensures multiset(SelectAll(bs, ks)) == multiset(bs)
  {
    forall x ensures multiset(SelectAll(bs, ks))[x] == multiset(bs)[x] {
      SelectAllCount(bs, ks, x);
    }
  }

  /** Every key of `GroupKeys` names a non-empty bucket. */
  lemma BucketNonEmpty(bs: seq<FormBlock>, k: GroupKey)
    requires k in GroupKeys(bs)
    ensures Select(bs, k) != []
  {
    var b :| b in bs && b.group == k;
    assert b in Select(bs, k);
  }

  /** Two key lists without duplicates that hold the same keys are as long as each other. */
  lemma NoDupSameSet<T(!new)>(a: seq<T>, b: seq<T>)
    requires NoDup(a) && NoDup(b)
    requires forall x :: x in a <==> x in b
    ensures multiset(a) == multiset(b)
    ensures |a| == |b|
  {
    forall x ensures multiset(a)[x] == multiset(b)[x] {
      assert x in a <==> multiset(a)[x] > 0;
      assert x in b <==> multiset(b)[x] > 0;
    }
    assert |multiset(a)| == |a| && |multiset(b)| == |b|;
  }

  /** A list whose entries are pairwise distinct holds each value at most once. */
  lemma {:induction false} DistinctNoDup<T(!new)>(s: seq<T>)
    requires forall i, j :: 0 <= i < j < |s| ==> s[i] != s[j]
    ensures NoDup(s)
  {
    if s != [] {
      DistinctNoDup(s[1..]);
      assert s == [s[0]] + s[1..];
      forall x ensures multiset(s)[x] <= 1 {
        assert multiset(s)[x] == multiset([s[0]])[x] + multiset(s[1..])[x];
        if x == s[0] {
          assert x !in s[1..];
        }
      }
    }
  }

  /** Joining two duplicate-free lists with no value in common stays duplicate-free. */
  lemma NoDupConcat<T(!new)>(a: seq<T>, b: seq<T>)
    requires NoDup(a) && NoDup(b)
    requires forall x :: x in a ==> x !in b
    ensures NoDup(a + b)
  {
    forall x ensures multiset(a + b)[x] <= 1 {
      assert multiset(a + b)[x] == multiset(a)[x] + multiset(b)[x];
      if multiset(a)[x] > 0 {
        assert x in a;
      }
    }
  }
}
