/**
 * The group resolver: decides which buckets become section groups, in what
 * order and under which title. Groups named by the metadata come first, in
 * metadata order and under the metadata title (the first entry for an id
 * wins); named groups without metadata follow, ordered by an explicit policy;
 * the untagged bucket comes last and has no title.
 */
module GroupResolver {
  import opened Wrappers
  import opened FormTypes
  import opened StringOrder
  import opened Grouping
  import opened Sections

  /**
   * How named groups without metadata are ordered among themselves: groups
   * holding a required block before the others (each class in first-appearance
   * order), or by group id.
   */
  datatype UndescribedOrder = RequiredFirst | ById

  /** One group to emit: its bucket key and its title. */
  datatype Slot = Slot(key: GroupKey, title: Option<string>)

  predicate Described(ds: seq<GroupDetails>, id: string)
  {
    exists i :: 0 <= i < |ds| && ds[i].id == id
  }

  /** The position of the first metadata entry for `id`. */
  function FirstIndex(ds: seq<GroupDetails>, id: string): (k: nat)
    requires Described(ds, id)
    ensures k < |ds| && ds[k].id == id
    ensures forall i :: 0 <= i < k ==> ds[i].id != id
  {
    if ds[0].id == id then 0
    else
      assert Described(ds[1..], id) by {
        var i :| 0 <= i < |ds| && ds[i].id == id;
        assert ds[1..][i - 1].id == id;
      }
      1 + FirstIndex(ds[1..], id)
  }

  /** The title of group `id`: that of the first metadata entry for it, if any. */
  function TitleOf(ds: seq<GroupDetails>, id: string): (r: Option<string>)
    ensures r.Some? <==> Described(ds, id)
    ensures r.Some? ==> r.value == ds[FirstIndex(ds, id)].title
  {
    if ds == [] then None
    else if ds[0].id == id then Some(ds[0].title)
    else
      assert Described(ds, id) <==> Described(ds[1..], id) by {
        if Described(ds, id) {
          var i :| 0 <= i < |ds| && ds[i].id == id;
          assert ds[1..][i - 1].id == id;
        }
        if Described(ds[1..], id) {
          var i :| 0 <= i < |ds[1..]| && ds[1..][i].id == id;
          assert ds[i + 1].id == id;
        }
      }
      TitleOf(ds[1..], id)
  }

  /** A slot for a described bucket whose first metadata entry is at `k` or later. */
  predicate DescribedSlot(ds: seq<GroupDetails>, keys: seq<GroupKey>, k: nat, s: Slot)
  {
    && s.key.Some? && s.key in keys && Described(ds, s.key.value)
    && k <= FirstIndex(ds, s.key.value)
    && s.title == TitleOf(ds, s.key.value)
  }

  /**
   * `r` lists described groups that have a bucket, each under its metadata
   * title, whose first metadata entry is at `k` or later, in metadata order.
   */
  predicate DescribedSlots(ds: seq<GroupDetails>, keys: seq<GroupKey>, k: nat, r: seq<Slot>)
  {
    && (forall i :: 0 <= i < |r| ==> DescribedSlot(ds, keys, k, r[i]))
    && (forall i, j :: 0 <= i < j < |r| ==>
          FirstIndex(ds, r[i].key.value) < FirstIndex(ds, r[j].key.value))
  }

  /** The described groups that have a bucket, from metadata entry `k` on. */
  function DescribedFrom(ds: seq<GroupDetails>, keys: seq<GroupKey>, k: nat): (r: seq<Slot>)
    requires k <= |ds|
    ensures DescribedSlots(ds, keys, k, r)
    decreases |ds| - k
  {
    if k == |ds| then []
    else
      var rest := DescribedFrom(ds, keys, k + 1);
      var id := ds[k].id;
      if Some(id) in keys && FirstIndex(ds, id) == k then
        DescribedCons(ds, keys, k, rest);
        [Slot(Some(id), Some(ds[k].title))] + rest
      else
        DescribedLater(ds, keys, k, rest);
        rest
  }

  /** Slots whose entries start at `k + 1` or later start at `k` or later. */
  lemma DescribedLater(ds: seq<GroupDetails>, keys: seq<GroupKey>, k: nat, rest: seq<Slot>)
    requires DescribedSlots(ds, keys, k + 1, rest)
    ensures DescribedSlots(ds, keys, k, rest)
  {
    forall i | 0 <= i < |rest| ensures DescribedSlot(ds, keys, k, rest[i]) {
      assert DescribedSlot(ds, keys, k + 1, rest[i]);
    }
  }

  /** The group whose first metadata entry is `k` goes in front of the later ones. */
  lemma DescribedCons(ds: seq<GroupDetails>, keys: seq<GroupKey>, k: nat, rest: seq<Slot>)
    requires k < |ds| && Some(ds[k].id) in keys && FirstIndex(ds, ds[k].id) == k
    requires DescribedSlots(ds, keys, k + 1, rest)
    ensures DescribedSlots(ds, keys, k, [Slot(Some(ds[k].id), Some(ds[k].title))] + rest)
  {
    DescribedConsFields(ds, keys, k, rest);
    DescribedConsOrder(ds, keys, k, rest);
  }

  lemma DescribedConsFields(ds: seq<GroupDetails>, keys: seq<GroupKey>, k: nat, rest: seq<Slot>)
    requires k < |ds| && Some(ds[k].id) in keys && FirstIndex(ds, ds[k].id) == k
    requires DescribedSlots(ds, keys, k + 1, rest)
    ensures var r := [Slot(Some(ds[k].id), Some(ds[k].title))] + rest;
            forall i :: 0 <= i < |r| ==> DescribedSlot(ds, keys, k, r[i])
  {
    var head := Slot(Some(ds[k].id), Some(ds[k].title));
    var r := [head] + rest;
    DescribedLater(ds, keys, k, rest);
    assert Described(ds, ds[k].id) && TitleOf(ds, ds[k].id) == Some(ds[k].title);
    assert DescribedSlot(ds, keys, k, head);
    ConsTail(head, rest);
  }

  lemma DescribedConsOrder(ds: seq<GroupDetails>, keys: seq<GroupKey>, k: nat, rest: seq<Slot>)
    requires k < |ds| && FirstIndex(ds, ds[k].id) == k
    requires DescribedSlots(ds, keys, k + 1, rest)
    ensures var r := [Slot(Some(ds[k].id), Some(ds[k].title))] + rest;
            forall i, j :: 0 <= i < j < |r| ==> FirstIndex(ds, r[i].key.value) < FirstIndex(ds, r[j].key.value)
  {
    var r := [Slot(Some(ds[k].id), Some(ds[k].title))] + rest;
    ConsTail(r[0], rest);
    forall i, j | 0 <= i < j < |r|
      ensures FirstIndex(ds, r[i].key.value) < FirstIndex(ds, r[j].key.value)
    {
      if i == 0 {
        assert DescribedSlot(ds, keys, k + 1, rest[j - 1]);
      }
    }
  }

  lemma {:induction false} DescribedFromComplete(ds: seq<GroupDetails>, keys: seq<GroupKey>, k: nat, id: string)
    requires k <= |ds|
    requires Described(ds, id) && Some(id) in keys && k <= FirstIndex(ds, id)
    ensures Slot(Some(id), TitleOf(ds, id)) in DescribedFrom(ds, keys, k)
    decreases |ds| - k
  {
    if k < FirstIndex(ds, id) {
      DescribedFromComplete(ds, keys, k + 1, id);
    }
  }

  /** The named bucket keys without metadata, in first-appearance order. */
  function UndescribedNames(keys: seq<GroupKey>, ds: seq<GroupDetails>): (r: seq<string>)
    ensures forall n {:trigger n in r} {:trigger Some(n) in keys} :: n in r <==> Some(n) in keys && !Described(ds, n)
    ensures forall n {:trigger multiset(r)[n]} :: multiset(r)[n] <= multiset(keys)[Some(n)]
  {
    if keys == [] then []
    else
      assert keys == [keys[0]] + keys[1..];
      (if keys[0].Some? && !Described(ds, keys[0].value) then [keys[0].value] else [])
      + UndescribedNames(keys[1..], ds)
  }

  /** Named groups listed in the order in which their first blocks appear in `bs`. */
  predicate NamesInAppearanceOrder(bs: seq<FormBlock>, names: seq<string>)
  {
    forall i, j :: 0 <= i < j < |names| ==> FirstSeen(bs, Some(names[i])) < FirstSeen(bs, Some(names[j]))
  }

  /** Listing the undescribed names keeps the order of the keys. */
  lemma {:induction false} UndescribedInAppearance(keys: seq<GroupKey>, ds: seq<GroupDetails>, bs: seq<FormBlock>)
    requires InAppearanceOrder(bs, keys)
    ensures NamesInAppearanceOrder(bs, UndescribedNames(keys, ds))
  {
    if keys != [] {
      var tail := keys[1..];
      assert forall i :: 0 <= i < |tail| ==> tail[i] == keys[i + 1];
      UndescribedInAppearance(tail, ds, bs);
      var t := UndescribedNames(tail, ds);
      if keys[0].Some? && !Described(ds, keys[0].value) {
        forall n | n in t ensures FirstSeen(bs, keys[0]) < FirstSeen(bs, Some(n)) {
          assert Some(n) in tail;
          var q :| 0 <= q < |tail| && tail[q] == Some(n);
        }
        HeadBelowTail(bs, keys[0].value, t);
      }
    }
  }

  /** A name seen before every name of an ordered list extends it at the front. */
  lemma HeadBelowTail(bs: seq<FormBlock>, n: string, t: seq<string>)
    requires NamesInAppearanceOrder(bs, t)
    requires forall m :: m in t ==> FirstSeen(bs, Some(n)) < FirstSeen(bs, Some(m))
    ensures NamesInAppearanceOrder(bs, [n] + t)
  {
    var r := [n] + t;
    forall i, j | 0 <= i < j < |r| ensures FirstSeen(bs, Some(r[i])) < FirstSeen(bs, Some(r[j])) {
      assert r[j] == t[j - 1] && t[j - 1] in t;
      if i > 0 {
        assert r[i] == t[i - 1];
      }
    }
  }

  /** Whether the bucket of named group `n` holds a required block. */
  predicate BucketRequired(bs: seq<FormBlock>, n: string)
  {
    HasRequired(Select(bs, Some(n)))
  }

  /** The names whose bucket has (`want`) or lacks (`!want`) a required block, in order. */
  function KeepRequired(names: seq<string>, bs: seq<FormBlock>, want: bool): (r: seq<string>)
    ensures forall n {:trigger n in r} :: n in r ==> BucketRequired(bs, n) == want
    ensures forall n {:trigger multiset(r)[n]} {:trigger multiset(names)[n]} ::
              multiset(r)[n] == if BucketRequired(bs, n) == want then multiset(names)[n] else 0
  {
    if names == [] then []
    else
      assert names == [names[0]] + names[1..];
      (if BucketRequired(bs, names[0]) == want then [names[0]] else []) + KeepRequired(names[1..], bs, want)
  }

  /** Keeping one class of names keeps their order. */
  lemma {:induction false} KeepInAppearance(names: seq<string>, bs: seq<FormBlock>, want: bool)
    requires NamesInAppearanceOrder(bs, names)
    ensures NamesInAppearanceOrder(bs, KeepRequired(names, bs, want))
  {
    if names != [] {
      var tail := names[1..];
      assert forall i :: 0 <= i < |tail| ==> tail[i] == names[i + 1];
      KeepInAppearance(tail, bs, want);
      var t := KeepRequired(tail, bs, want);
      if BucketRequired(bs, names[0]) == want {
        KeptIn(tail, bs, want);
        forall m | m in t ensures FirstSeen(bs, Some(names[0])) < FirstSeen(bs, Some(m)) {
          var q :| 0 <= q < |tail| && tail[q] == m;
        }
        HeadBelowTail(bs, names[0], t);
      }
    }
  }

  /** Every kept name is one of the names. */
  lemma KeptIn(names: seq<string>, bs: seq<FormBlock>, want: bool)
    ensures forall m :: m in KeepRequired(names, bs, want) ==> m in names
  {
    forall m | m in KeepRequired(names, bs, want) ensures m in names {
      assert m in multiset(KeepRequired(names, bs, want));
    }
  }

  predicate IdsSorted(s: seq<string>)
  {
    forall i, j :: 0 <= i < j < |s| ==> StrLe(s[i], s[j])
  }

  /** An id not above the head of a sorted list extends it. */
  lemma IdsSortedCons(x: string, s: seq<string>)
    requires IdsSorted(s)
    requires s != [] ==> StrLe(x, s[0])
    ensures IdsSorted([x] + s)
  {
    var r := [x] + s;
    forall i, j | 0 <= i < j < |r| ensures StrLe(r[i], r[j]) {
      if i == 0 && j > 1 {
        StrLeTrans(x, s[0], s[j - 1]);
      }
    }
  }

  /** An id below every id of `s` and `x` is below every id of a rearrangement of both. */
  lemma BelowInserted(h: string, x: string, s: seq<string>, t: seq<string>)
    requires forall j :: 0 <= j < |s| ==> StrLe(h, s[j])
    requires StrLe(h, x)
    requires multiset(t) == multiset(s) + multiset{x}
    ensures forall k :: 0 <= k < |t| ==> StrLe(h, t[k])
  {
    forall k | 0 <= k < |t| ensures StrLe(h, t[k]) {
      assert t[k] in multiset(s) + multiset{x};
      if t[k] != x {
        var j :| 0 <= j < |s| && s[j] == t[k];
      }
    }
  }

  /** Puts id `x` in front of the first id of `s` it is not above. */
  function InsertId(x: string, s: seq<string>): (r: seq<string>)
    requires IdsSorted(s)
    ensures multiset(r) == multiset(s) + multiset{x}
    ensures IdsSorted(r)
  {
    if s == [] then [x]
    else if StrLe(x, s[0]) then
      IdsSortedCons(x, s);
      [x] + s
    else
      var t := InsertId(x, s[1..]);
      HeadTail(s);
      StrLeTotal(x, s[0]);
      assert forall j :: 0 <= j < |s[1..]| ==> StrLe(s[0], s[1..][j]) by {
        forall j | 0 <= j < |s[1..]| ensures StrLe(s[0], s[1..][j]) {
          assert s[1..][j] == s[j + 1];
        }
      }
      BelowInserted(s[0], x, s[1..], t);
      IdsSortedCons(s[0], t);
      [s[0]] + t
  }

  /** Group ids in ascending order. */
  function SortIds(s: seq<string>): (r: seq<string>)
    ensures multiset(r) == multiset(s)
    ensures IdsSorted(r)
  {
    if s == [] then []
    else
      assert s == [s[0]] + s[1..];
      InsertId(s[0], SortIds(s[1..]))
  }

  function OrderUndescribed(policy: UndescribedOrder, names: seq<string>, bs: seq<FormBlock>): (r: seq<string>)
    ensures multiset(r) == multiset(names)
  {
    match policy
    case ById => SortIds(names)
    case RequiredFirst =>
      var r := KeepRequired(names, bs, true) + KeepRequired(names, bs, false);
      assert forall n :: multiset(r)[n] == multiset(names)[n];
      r
  }

  /**
   * Undescribed group `a` may be emitted before undescribed group `b`: by id,
   * or a group holding a required block before one without, and within each
   * class in order of first appearance in `bs`.
   */
  predicate PolicyAllows(policy: UndescribedOrder, bs: seq<FormBlock>, a: string, b: string)
  {
    match policy
    case ById => StrLe(a, b)
    case RequiredFirst =>
      && (BucketRequired(bs, b) ==> BucketRequired(bs, a))
      && (BucketRequired(bs, a) == BucketRequired(bs, b) ==> FirstSeen(bs, Some(a)) < FirstSeen(bs, Some(b)))
  }

  /** The undescribed groups come in the order the policy promises. */
  predicate PolicyOrdered(policy: UndescribedOrder, names: seq<string>, bs: seq<FormBlock>)
  {
    forall i, j :: 0 <= i < j < |names| ==> PolicyAllows(policy, bs, names[i], names[j])
  }

  /** Given names in order of first appearance, the policy's order holds between every two of them. */
  lemma OrderUndescribedOrdered(policy: UndescribedOrder, names: seq<string>, bs: seq<FormBlock>)
    requires NamesInAppearanceOrder(bs, names)
    ensures PolicyOrdered(policy, OrderUndescribed(policy, names, bs), bs)
  {
    if policy == RequiredFirst {
      var a := KeepRequired(names, bs, true);
      var b := KeepRequired(names, bs, false);
      var r := a + b;
      KeepInAppearance(names, bs, true);
      KeepInAppearance(names, bs, false);
      forall i, j | 0 <= i < j < |r| ensures PolicyAllows(policy, bs, r[i], r[j]) {
        if j < |a| {
          assert r[i] == a[i] && r[j] == a[j];
          assert r[i] in a && r[j] in a;
        } else if i >= |a| {
          assert r[i] == b[i - |a|] && r[j] == b[j - |a|];
          assert r[i] in b && r[j] in b;
        } else {
          assert r[i] == a[i] && r[j] == b[j - |a|];
          assert r[i] in a && r[j] in b;
        }
      }
    }
  }

  function Untitled(names: seq<string>): (r: seq<Slot>)
    ensures |r| == |names|
    ensures forall i :: 0 <= i < |r| ==> r[i] == Slot(Some(names[i]), None)
  {
    seq(|names|, i requires 0 <= i < |names| => Slot(Some(names[i]), None))
  }

  function DefaultSlot(keys: seq<GroupKey>): seq<Slot>
  {
    if None in keys then [Slot(None, None)] else []
  }

  /**
   * The groups to emit, in order, for the bucket keys `keys` of `bs`: every
   * bucket exactly once and nothing else; titles from the metadata; titled
   * groups first, in metadata order; untitled named groups next, in the
   * policy's order; the untagged group, when there is one, last.
   */
  function ResolveSlots(ds: seq<GroupDetails>, keys: seq<GroupKey>, bs: seq<FormBlock>,
                        policy: UndescribedOrder): (r: seq<Slot>)
    ensures NoDup(keys) ==> NoDup(SlotKeys(r)) && forall k :: k in SlotKeys(r) <==> k in keys
    ensures TitledByMetadata(ds, r)
    ensures DescribedFirst(ds, r)
    ensures InAppearanceOrder(bs, keys) ==> UndescribedByPolicy(policy, bs, r)
    ensures None in keys <==> |r| > 0 && r[|r| - 1].key == None
  {
    PartsAreBuckets(ds, keys, bs, policy);
    PartsOrdered(ds, keys, bs, policy);
    DescribedFrom(ds, keys, 0)
    + Untitled(OrderUndescribed(policy, UndescribedNames(keys, ds), bs))
    + DefaultSlot(keys)
  }

  function SlotKeys(slots: seq<Slot>): (r: seq<GroupKey>)
    ensures |r| == |slots|
    ensures forall i :: 0 <= i < |r| ==> r[i] == slots[i].key
  {
    seq(|slots|, i requires 0 <= i < |slots| => slots[i].key)
  }

  lemma NoDupDistinct<T(!new)>(s: seq<T>, i: nat, j: nat)
    requires NoDup(s) && i < j < |s|
    ensures s[i] != s[j]
  {
    assert s == s[..j] + s[j..];
    assert s[i] in s[..j] && s[j] in s[j..];
    assert multiset(s)[s[j]] == multiset(s[..j])[s[j]] + multiset(s[j..])[s[j]];
  }

  /** Positions in a three-part concatenation. */
  lemma ConcatIndex<T>(a: seq<T>, b: seq<T>, c: seq<T>)
    ensures |a + b + c| == |a| + |b| + |c|
    ensures forall i :: 0 <= i < |a| ==> (a + b + c)[i] == a[i]
    ensures forall m :: 0 <= m < |b| ==> (a + b + c)[|a| + m] == b[m]
    ensures forall m :: 0 <= m < |c| ==> (a + b + c)[|a| + |b| + m] == c[m]
  {
  }

  /** The slot keys of three parts that each hold distinct keys and share none. */
  lemma KeysOfParts(a: seq<Slot>, ord: seq<string>, c: seq<Slot>)
    requires forall i, j :: 0 <= i < j < |a| ==> a[i].key != a[j].key
    requires forall i :: 0 <= i < |a| ==> a[i].key.Some? && a[i].key.value !in ord
    requires NoDup(ord)
    requires c == [] || c == [Slot(None, None)]
    ensures NoDup(SlotKeys(a + Untitled(ord) + c))
    ensures forall k :: k in SlotKeys(a + Untitled(ord) + c) <==>
                          k in SlotKeys(a) || (k.Some? && k.value in ord) || (k.None? && c != [])
  {
    var b := Untitled(ord);
    var r := a + b + c;
    assert SlotKeys(r) == SlotKeys(a) + SlotKeys(b) + SlotKeys(c);
    DistinctNoDup(SlotKeys(a));
    forall i, j | 0 <= i < j < |SlotKeys(b)| ensures SlotKeys(b)[i] != SlotKeys(b)[j] {
      NoDupDistinct(ord, i, j);
    }
    DistinctNoDup(SlotKeys(b));
    DistinctNoDup(SlotKeys(c));
    forall x | x in SlotKeys(a) ensures x !in SlotKeys(b) {
      var i :| 0 <= i < |SlotKeys(a)| && SlotKeys(a)[i] == x;
    }
    NoDupConcat(SlotKeys(a), SlotKeys(b));
    NoDupConcat(SlotKeys(a) + SlotKeys(b), SlotKeys(c));
    forall k ensures k in SlotKeys(b) <==> k.Some? && k.value in ord {
      if k.Some? && k.value in ord {
        var m :| 0 <= m < |ord| && ord[m] == k.value;
        assert SlotKeys(b)[m] == k;
      }
    }
    if c != [] {
      assert SlotKeys(c) == [None];
    } else {
      assert SlotKeys(c) == [];
    }
  }

  /** Every described group that has a bucket is among the described slots. */
  lemma DescribedCovered(ds: seq<GroupDetails>, keys: seq<GroupKey>)
    ensures forall n :: Described(ds, n) && Some(n) in keys ==> Some(n) in SlotKeys(DescribedFrom(ds, keys, 0))
  {
    var a := DescribedFrom(ds, keys, 0);
    forall n | Described(ds, n) && Some(n) in keys ensures Some(n) in SlotKeys(a) {
      DescribedFromComplete(ds, keys, 0, n);
      var i :| 0 <= i < |a| && a[i] == Slot(Some(n), TitleOf(ds, n));
      assert SlotKeys(a)[i] == Some(n);
    }
  }

  /** The undescribed names, in policy order, are the undescribed buckets, each once. */
  lemma UndescribedPart(ds: seq<GroupDetails>, keys: seq<GroupKey>, bs: seq<FormBlock>, policy: UndescribedOrder)
    requires NoDup(keys)
    ensures var ord := OrderUndescribed(policy, UndescribedNames(keys, ds), bs);
            NoDup(ord) && forall n :: n in ord <==> Some(n) in keys && !Described(ds, n)
  {
    var names := UndescribedNames(keys, ds);
    var ord := OrderUndescribed(policy, names, bs);
    forall n ensures n in ord <==> n in names {
      assert n in ord <==> n in multiset(ord);
      assert n in names <==> n in multiset(names);
    }
    forall n ensures multiset(ord)[n] <= 1 {
      assert multiset(keys)[Some(n)] <= 1;
    }
  }

  /** The described slots: distinct keys, each a described group that has a bucket. */
  lemma DescribedPart(ds: seq<GroupDetails>, keys: seq<GroupKey>)
    ensures var a := DescribedFrom(ds, keys, 0);
            && (forall i, j :: 0 <= i < j < |a| ==> a[i].key != a[j].key)
            && (forall i :: 0 <= i < |a| ==> a[i].key.Some? && a[i].key in keys && Described(ds, a[i].key.value))
  {
  }

  lemma BucketsOfParts(keys: seq<GroupKey>, a: seq<Slot>, ord: seq<string>, c: seq<Slot>)
    requires forall i, j :: 0 <= i < j < |a| ==> a[i].key != a[j].key
    requires forall i :: 0 <= i < |a| ==> a[i].key.Some? && a[i].key in keys && a[i].key.value !in ord
    requires NoDup(ord) && forall n :: n in ord ==> Some(n) in keys
    requires c == if None in keys then [Slot(None, None)] else []
    requires forall k :: k in keys ==> k in SlotKeys(a) || (k.Some? && k.value in ord) || k.None?
    ensures NoDup(SlotKeys(a + Untitled(ord) + c))
    ensures forall k :: k in SlotKeys(a + Untitled(ord) + c) <==> k in keys
  {
    KeysOfParts(a, ord, c);
    forall k | k in SlotKeys(a) ensures k in keys {
      var i :| 0 <= i < |a| && SlotKeys(a)[i] == k;
    }
  }

  /** Every bucket is emitted exactly once, and nothing else is. */
  lemma PartsAreBuckets(ds: seq<GroupDetails>, keys: seq<GroupKey>, bs: seq<FormBlock>, policy: UndescribedOrder)
    ensures var r := DescribedFrom(ds, keys, 0)
                     + Untitled(OrderUndescribed(policy, UndescribedNames(keys, ds), bs))
                     + DefaultSlot(keys);
            NoDup(keys) ==> NoDup(SlotKeys(r)) && forall k :: k in SlotKeys(r) <==> k in keys
  {
    if NoDup(keys) {
      var a := DescribedFrom(ds, keys, 0);
      var ord := OrderUndescribed(policy, UndescribedNames(keys, ds), bs);
      var c := DefaultSlot(keys);
      UndescribedPart(ds, keys, bs, policy);
      DescribedCovered(ds, keys);
      DescribedPart(ds, keys);
      BucketsOfParts(keys, a, ord, c);
    }
  }

  /** Slot `x` is a described group whose metadata entry precedes that of `y`. */
  predicate DescribedBefore(ds: seq<GroupDetails>, x: Slot, y: Slot)
  {
    && x.key.Some? && y.key.Some? && Described(ds, x.key.value) && Described(ds, y.key.value)
    && FirstIndex(ds, x.key.value) < FirstIndex(ds, y.key.value)
  }

  /** Titles follow the metadata: a named group's title is that of its first entry. */
  predicate TitledByMetadata(ds: seq<GroupDetails>, r: seq<Slot>)
  {
    forall i :: 0 <= i < |r| ==> r[i].title == (if r[i].key.Some? then TitleOf(ds, r[i].key.value) else None)
  }

  /** Titled groups come first, in metadata order. */
  predicate DescribedFirst(ds: seq<GroupDetails>, r: seq<Slot>)
  {
    forall i, j :: 0 <= i < j < |r| && r[j].title.Some? ==> DescribedBefore(ds, r[i], r[j])
  }

  /** Untitled named groups come in the policy's order. */
  predicate UndescribedByPolicy(policy: UndescribedOrder, bs: seq<FormBlock>, r: seq<Slot>)
  {
    forall i, j :: 0 <= i < j < |r| && r[i].key.Some? && r[j].key.Some? &&
                   r[i].title.None? && r[j].title.None? ==>
                     PolicyAllows(policy, bs, r[i].key.value, r[j].key.value)
  }

  lemma OrderOfParts(ds: seq<GroupDetails>, a: seq<Slot>, ord: seq<string>, c: seq<Slot>,
                     policy: UndescribedOrder, bs: seq<FormBlock>)
    requires forall i :: 0 <= i < |a| ==>
               a[i].key.Some? && Described(ds, a[i].key.value) && a[i].title == TitleOf(ds, a[i].key.value)
    requires forall i, j :: 0 <= i < j < |a| ==> FirstIndex(ds, a[i].key.value) < FirstIndex(ds, a[j].key.value)
    requires forall m :: 0 <= m < |ord| ==> !Described(ds, ord[m])
    requires c == [] || c == [Slot(None, None)]
    ensures TitledByMetadata(ds, a + Untitled(ord) + c)
    ensures DescribedFirst(ds, a + Untitled(ord) + c)
    ensures PolicyOrdered(policy, ord, bs) ==> UndescribedByPolicy(policy, bs, a + Untitled(ord) + c)
    ensures c != [] <==> |a + Untitled(ord) + c| > 0 && (a + Untitled(ord) + c)[|a + Untitled(ord) + c| - 1].key == None
  {
    var b := Untitled(ord);
    var r := a + b + c;
    ConcatIndex(a, b, c);
    forall i | 0 <= i < |r|
      ensures r[i].title == (if r[i].key.Some? then TitleOf(ds, r[i].key.value) else None)
    {
      if |a| <= i < |a| + |b| {
        assert r[i] == b[i - |a|];
      }
    }
    forall i, j | 0 <= i < j < |r| && r[j].title.Some? ensures DescribedBefore(ds, r[i], r[j]) {
      assert j < |a|;
    }
    if PolicyOrdered(policy, ord, bs) {
      forall i, j | 0 <= i < j < |r| && r[i].key.Some? && r[j].key.Some? && r[i].title.None? && r[j].title.None?
        ensures PolicyAllows(policy, bs, r[i].key.value, r[j].key.value)
      {
        assert |a| <= i && j < |a| + |b|;
        assert r[i] == b[i - |a|] && r[j] == b[j - |a|];
      }
    }
    if |r| > 0 && r[|r| - 1].key == None {
      assert |c| == 1;
    }
  }

  /** The order and titles of the three parts of the slot list. */
  lemma PartsOrdered(ds: seq<GroupDetails>, keys: seq<GroupKey>, bs: seq<FormBlock>, policy: UndescribedOrder)
    ensures var r := DescribedFrom(ds, keys, 0)
                     + Untitled(OrderUndescribed(policy, UndescribedNames(keys, ds), bs))
                     + DefaultSlot(keys);
            && TitledByMetadata(ds, r)
            && DescribedFirst(ds, r)
            && (InAppearanceOrder(bs, keys) ==> UndescribedByPolicy(policy, bs, r))
            && (None in keys <==> |r| > 0 && r[|r| - 1].key == None)
  {
    var a := DescribedFrom(ds, keys, 0);
    var names := UndescribedNames(keys, ds);
    var ord := OrderUndescribed(policy, names, bs);
    var c := DefaultSlot(keys);
    DescribedPartFacts(ds, keys, a);
    UndescribedPartFacts(ds, keys, bs, policy);
    assert ord == OrderUndescribed(policy, UndescribedNames(keys, ds), bs);
    OrderOfParts(ds, a, ord, c, policy, bs);
  }

  lemma DescribedPartFacts(ds: seq<GroupDetails>, keys: seq<GroupKey>, a: seq<Slot>)
    requires DescribedSlots(ds, keys, 0, a)
    ensures forall i :: 0 <= i < |a| ==>
              a[i].key.Some? && Described(ds, a[i].key.value) && a[i].title == TitleOf(ds, a[i].key.value)
    ensures forall i, j :: 0 <= i < j < |a| ==> FirstIndex(ds, a[i].key.value) < FirstIndex(ds, a[j].key.value)
  {
    forall i | 0 <= i < |a|
      ensures a[i].key.Some? && Described(ds, a[i].key.value) && a[i].title == TitleOf(ds, a[i].key.value)
    {
      assert DescribedSlot(ds, keys, 0, a[i]);
    }
  }

  lemma UndescribedPartFacts(ds: seq<GroupDetails>, keys: seq<GroupKey>, bs: seq<FormBlock>, policy: UndescribedOrder)
    ensures var ord := OrderUndescribed(policy, UndescribedNames(keys, ds), bs);
            && (forall m :: 0 <= m < |ord| ==> !Described(ds, ord[m]))
            && (InAppearanceOrder(bs, keys) ==> PolicyOrdered(policy, ord, bs))
  {
    var names := UndescribedNames(keys, ds);
    var ord := OrderUndescribed(policy, names, bs);
    if InAppearanceOrder(bs, keys) {
      UndescribedInAppearance(keys, ds, bs);
      OrderUndescribedOrdered(policy, names, bs);
    }
    forall m | 0 <= m < |ord| ensures !Described(ds, ord[m]) {
      assert ord[m] in multiset(names);
      assert ord[m] in names;
    }
  }
}
