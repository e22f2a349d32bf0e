/**
 * Builders for concrete forms and one-step unfoldings of the model's
 * functions, used to work out the output of `generateGroupsAndSections`
 * on small literal inputs. Nothing is hidden by the authentication
 * collaborator and the form-state store reports no error.
 */
module ScenarioSteps {
  import opened Wrappers
  import opened FormTypes
  import opened StringOrder
  import opened BlockOrder
  import opened Visibility
  import opened Sections
  import opened Grouping
  import opened GroupResolver
  import opened GroupsAndSections

  /** A leaf field named `name`, its path the same as its key. */
  function Item(name: string, required: bool := false, order: Option<int> := None,
                group: Option<string> := None, hidden: bool := false): FormBlock
  {
    FormItem(name, name, required, order, group, hidden)
  }

  /** A nested object field named `name` over `items`. */
  function Object(items: seq<FormBlock>, name: string, required: bool := false, order: Option<int> := None,
                  group: Option<string> := None): FormBlock
  {
    FormGroup(name, name, required, order, group, items)
  }

  /** A section without an error. */
  function Sec(blocks: seq<FormBlock>, displayType: DisplayType := Expanded): Section
  {
    Section(blocks, displayType, false)
  }

  function NeverHidden(p: Path): bool { false }

  function NoError(p: Path): bool { false }

  function Generate(blocks: seq<FormBlock>, groups: seq<GroupDetails> := [], featureFlag: bool := true,
                    policy: UndescribedOrder := RequiredFirst): seq<SectionGroup>
  {
    GenerateGroupsAndSections(blocks, groups, featureFlag, NeverHidden, NoError, policy)
  }

  // Visibility and grouping.

  lemma ShownAll(bs: seq<FormBlock>)
    requires forall x :: x in bs ==> Visible(x, NeverHidden)
    ensures FilterVisible(bs, NeverHidden) == bs
  {
    FilterKeepsVisible(bs, NeverHidden);
  }

  lemma FilterCons(x: FormBlock, bs: seq<FormBlock>)
    ensures FilterVisible([x] + bs, NeverHidden)
            == (if Visible(x, NeverHidden) then [x] else []) + FilterVisible(bs, NeverHidden)
  {
    assert ([x] + bs)[1..] == bs;
  }

  lemma KeysSnoc(bs: seq<FormBlock>, x: FormBlock)
    ensures GroupKeys(bs + [x]) == if x.group in GroupKeys(bs) then GroupKeys(bs) else GroupKeys(bs) + [x.group]
  {
    assert (bs + [x])[..|bs|] == bs;
  }

  lemma SelectCons(x: FormBlock, bs: seq<FormBlock>, k: GroupKey)
    ensures Select([x] + bs, k) == (if x.group == k then [x] else []) + Select(bs, k)
  {
    assert ([x] + bs)[1..] == bs;
  }

  /** The keys grow by the tag of the block appended, unless it is already there. */
  function AddKey(keys: seq<GroupKey>, x: FormBlock): seq<GroupKey>
  {
    if x.group in keys then keys else keys + [x.group]
  }

  lemma KeysOne(a: FormBlock)
    ensures GroupKeys([a]) == [a.group]
  {
    assert [a] == [] + [a];
    KeysSnoc([], a);
  }

  lemma KeysTwo(a: FormBlock, b: FormBlock, keys: seq<GroupKey>)
    requires GroupKeys([a]) == keys
    ensures GroupKeys([a, b]) == AddKey(keys, b)
  {
    assert [a, b] == [a] + [b];
    KeysSnoc([a], b);
  }

  lemma KeysThree(a: FormBlock, b: FormBlock, c: FormBlock, keys: seq<GroupKey>)
    requires GroupKeys([a, b]) == keys
    ensures GroupKeys([a, b, c]) == AddKey(keys, c)
  {
    assert [a, b, c] == [a, b] + [c];
    KeysSnoc([a, b], c);
  }

  lemma KeysFour(a: FormBlock, b: FormBlock, c: FormBlock, d: FormBlock, keys: seq<GroupKey>)
    requires GroupKeys([a, b, c]) == keys
    ensures GroupKeys([a, b, c, d]) == AddKey(keys, d)
  {
    assert [a, b, c, d] == [a, b, c] + [d];
    KeysSnoc([a, b, c], d);
  }

  lemma KeysFive(a: FormBlock, b: FormBlock, c: FormBlock, d: FormBlock, e: FormBlock, keys: seq<GroupKey>)
    requires GroupKeys([a, b, c, d]) == keys
    ensures GroupKeys([a, b, c, d, e]) == AddKey(keys, e)
  {
    assert [a, b, c, d, e] == [a, b, c, d] + [e];
    KeysSnoc([a, b, c, d], e);
  }

  lemma {:induction false} SelectAppend(a: seq<FormBlock>, b: seq<FormBlock>, k: GroupKey)
    ensures Select(a + b, k) == Select(a, k) + Select(b, k)
  {
    if a == [] {
      assert a + b == b;
    } else {
      var head := if a[0].group == k then [a[0]] else [];
      assert (a + b)[0] == a[0] && (a + b)[1..] == a[1..] + b;
      SelectAppend(a[1..], b, k);
      calc {
        Select(a + b, k);
        head + Select(a[1..] + b, k);
        head + (Select(a[1..], k) + Select(b, k));
        (head + Select(a[1..], k)) + Select(b, k);
        Select(a, k) + Select(b, k);
      }
    }
  }

  lemma {:induction false} SelectNone(bs: seq<FormBlock>, k: GroupKey)
    requires forall x :: x in bs ==> x.group != k
    ensures Select(bs, k) == []
  {
    if bs != [] {
      SelectNone(bs[1..], k);
      assert bs[0] in bs;
    }
  }

  lemma {:induction false} SelectTagged(bs: seq<FormBlock>, k: GroupKey)
    requires forall x :: x in bs ==> x.group == k
    ensures Select(bs, k) == bs
  {
    if bs != [] {
      SelectTagged(bs[1..], k);
      assert bs == [bs[0]] + bs[1..];
    }
  }

  lemma {:induction false} CountUntagged(keys: seq<GroupKey>)
    requires forall k :: k in keys ==> k == None
    ensures multiset(keys)[None] == |keys|
  {
    if keys != [] {
      assert keys == [keys[0]] + keys[1..];
      assert keys[0] in keys && forall k :: k in keys[1..] ==> k in keys;
      CountUntagged(keys[1..]);
    }
  }

  lemma OnlyUntagged(keys: seq<GroupKey>)
    requires NoDup(keys) && None in keys
    requires forall k :: k in keys ==> k == None
    ensures keys == [None]
  {
    CountUntagged(keys);
    assert |keys| == 1;
  }

  // Layout.

  lemma SortCons(x: FormBlock, s: seq<FormBlock>)
    ensures SortBlocks([x] + s) == Insert(x, SortBlocks(s))
  {
    assert ([x] + s)[1..] == s;
  }

  lemma SortPairSwapped(x: FormBlock, y: FormBlock)
    requires !Precedes(x, y)
    ensures SortBlocks([x, y]) == [y, x]
  {
    SortCons(x, [y]);
    SortCons(y, []);
    InsertPast(x, [y]);
  }

  lemma SortPairKept(x: FormBlock, y: FormBlock)
    requires Precedes(x, y)
    ensures SortBlocks([x, y]) == [x, y]
  {
    SortedCons(x, [y]);
    SortOfSorted([x, y]);
  }

  /** A block that may not precede the head of a sorted pair goes past it. */
  lemma InsertPastFirst(x: FormBlock, p: FormBlock, q: FormBlock)
    requires Precedes(p, q) && !Precedes(x, p)
    ensures Insert(x, [p, q]) == [p] + Insert(x, [q])
  {
    SortedCons(q, []);
    SortedCons(p, [q]);
    InsertPast(x, [p, q]);
    assert [p, q][1..] == [q];
  }

  /** Inserting into a one-block list. */
  lemma InsertOne(x: FormBlock, q: FormBlock)
    ensures Insert(x, [q]) == if Precedes(x, q) then [x, q] else [q, x]
  {
    SortedCons(q, []);
    if Precedes(x, q) {
      InsertFront(x, [q]);
    } else {
      InsertPast(x, [q]);
      assert [q][1..] == [];
    }
  }

  /** A block that may precede neither of a sorted pair goes last. */
  lemma InsertLast(x: FormBlock, p: FormBlock, q: FormBlock)
    requires Precedes(p, q) && !Precedes(x, p) && !Precedes(x, q)
    ensures Insert(x, [p, q]) == [p, q, x]
  {
    InsertPastFirst(x, p, q);
    InsertOne(x, q);
  }

  /** A block that may precede the second of a sorted pair but not the first goes between them. */
  lemma InsertBetween(x: FormBlock, p: FormBlock, q: FormBlock)
    requires Precedes(p, q) && !Precedes(x, p) && Precedes(x, q)
    ensures Insert(x, [p, q]) == [p, x, q]
  {
    InsertPastFirst(x, p, q);
    InsertOne(x, q);
  }

  // Sections.

  function Laid(bs: seq<FormBlock>, displayType: DisplayType): seq<Section>
  {
    if bs == [] then [] else [Sec(bs, displayType)]
  }

  lemma LaidSection(bs: seq<FormBlock>, displayType: DisplayType)
    ensures SectionOf(bs, displayType, NoError) == Laid(bs, displayType)
  {
    NoErrorNoFlag(bs, NoError);
  }

  /** A bucket with a required block, cut at its first and last one. */
  lemma ZonesAt(sorted: seq<FormBlock>, f: nat, l: nat)
    requires f <= l < |sorted| && sorted[f].isRequired && sorted[l].isRequired
    requires forall i :: 0 <= i < f ==> !sorted[i].isRequired
    requires forall i :: l < i < |sorted| ==> !sorted[i].isRequired
    ensures Zones(sorted, NoError) == Laid(sorted[..f], CollapsedInline) + Laid(sorted[f..l + 1], Expanded)
                                      + Laid(sorted[l + 1..], CollapsedFooter)
  {
    ZonesCut(sorted, f, l);
    CutLaid(sorted, f, l);
  }

  lemma ZonesCut(sorted: seq<FormBlock>, f: nat, l: nat)
    requires f <= l < |sorted| && sorted[f].isRequired && sorted[l].isRequired
    requires forall i :: 0 <= i < f ==> !sorted[i].isRequired
    requires forall i :: l < i < |sorted| ==> !sorted[i].isRequired
    ensures Zones(sorted, NoError) == Cut(sorted, f, l, NoError)
  {
    assert HasRequired(sorted);
    var f', l' := FirstRequired(sorted), LastRequired(sorted);
    assert f' == f && l' == l;
  }

  lemma CutLaid(sorted: seq<FormBlock>, f: nat, l: nat)
    requires f <= l < |sorted|
    ensures Cut(sorted, f, l, NoError) == Laid(sorted[..f], CollapsedInline) + Laid(sorted[f..l + 1], Expanded)
                                         + Laid(sorted[l + 1..], CollapsedFooter)
  {
    LaidSection(sorted[..f], CollapsedInline);
    LaidSection(sorted[f..l + 1], Expanded);
    LaidSection(sorted[l + 1..], CollapsedFooter);
  }

  /** A non-empty bucket without a required block. */
  lemma ZonesCollapsed(sorted: seq<FormBlock>)
    requires sorted != [] && forall i :: 0 <= i < |sorted| ==> !sorted[i].isRequired
    ensures Zones(sorted, NoError) == [Sec(sorted, CollapsedGroup)]
  {
    LaidSection(sorted, CollapsedGroup);
  }

  lemma SlicesOfThree<T>(a: T, b: T, c: T)
    ensures [a, b, c][..0] == [] && [a, b, c][0..1] == [a] && [a, b, c][1..] == [b, c]
    ensures [a, b, c][..1] == [a] && [a, b, c][1..2] == [b] && [a, b, c][2..] == [c]
  {
  }

  lemma SlicesOfFour<T>(a: T, b: T, c: T, d: T)
    ensures [a, b, c, d][..2] == [a, b] && [a, b, c, d][2..3] == [c] && [a, b, c, d][3..] == [d]
  {
  }

  /** A required block then an optional one: the optional one goes to the footer. */
  lemma ZonesRequiredOptional(c: FormBlock, d: FormBlock)
    requires c.isRequired && !d.isRequired
    ensures Zones([c, d], NoError) == [Sec([c]), Sec([d], CollapsedFooter)]
  {
    var s := [c, d];
    ZonesAt(s, 0, 0);
    assert s[..0] == [] && s[0..1] == [c] && s[1..] == [d];
  }

  /** Two required blocks: one expanded section. */
  lemma ZonesRequiredPair(a: FormBlock, z: FormBlock)
    requires a.isRequired && z.isRequired
    ensures Zones([a, z], NoError) == [Sec([a, z])]
  {
    var s := [a, z];
    ZonesAt(s, 0, 1);
    assert s[..0] == [] && s[0..2] == s && s[2..] == [];
  }

  /** Two optional blocks: one collapsed group section. */
  lemma ZonesOptionalPair(a: FormBlock, b: FormBlock)
    requires !a.isRequired && !b.isRequired
    ensures Zones([a, b], NoError) == [Sec([a, b], CollapsedGroup)]
  {
    ZonesCollapsed([a, b]);
  }

  // Slots.

  lemma UndescribedCons(k: GroupKey, keys: seq<GroupKey>, ds: seq<GroupDetails>)
    ensures UndescribedNames([k] + keys, ds)
            == (if k.Some? && !Described(ds, k.value) then [k.value] else []) + UndescribedNames(keys, ds)
  {
    assert ([k] + keys)[1..] == keys;
  }

  lemma KeepCons(n: string, names: seq<string>, bs: seq<FormBlock>, want: bool)
    ensures KeepRequired([n] + names, bs, want)
            == (if BucketRequired(bs, n) == want then [n] else []) + KeepRequired(names, bs, want)
  {
    assert ([n] + names)[1..] == names;
  }

  lemma SortIdsCons(x: string, s: seq<string>)
    ensures SortIds([x] + s) == InsertId(x, SortIds(s))
  {
    assert ([x] + s)[1..] == s;
  }

  lemma InsertIdPast(x: string, y: string)
    requires !StrLe(x, y)
    ensures InsertId(x, [y]) == [y, x]
  {
    assert [y][1..] == [];
  }

  lemma InsertIdFront(x: string, y: string)
    requires StrLe(x, y)
    ensures InsertId(x, [y]) == [x, y]
  {
  }

  /** Two named buckets, no group metadata: both are undescribed, in bucket order. */
  lemma UntitledPair(k1: GroupKey, k2: GroupKey)
    requires k1.Some? && k2.Some?
    ensures UndescribedNames([k1, k2], []) == [k1.value, k2.value]
  {
    UndescribedCons(k1, [k2], []);
    UndescribedCons(k2, [], []);
  }

  lemma UntitledOne(x: string)
    ensures Untitled([x]) == [Slot(Some(x), None)]
  {
  }

  lemma UntitledTwo(x: string, y: string)
    ensures Untitled([x, y]) == [Slot(Some(x), None), Slot(Some(y), None)]
  {
  }

  /** The slots, given the described slots, the undescribed names and their order. */
  lemma Resolved(ds: seq<GroupDetails>, keys: seq<GroupKey>, bs: seq<FormBlock>, policy: UndescribedOrder,
                 described: seq<Slot>, names: seq<string>, ordered: seq<string>)
    requires DescribedFrom(ds, keys, 0) == described
    requires UndescribedNames(keys, ds) == names
    requires OrderUndescribed(policy, names, bs) == ordered
    ensures ResolveSlots(ds, keys, bs, policy) == described + Untitled(ordered) + DefaultSlot(keys)
  {
  }

  /** No group metadata and two named buckets: the slots are the two names in the chosen order. */
  lemma TwoUndescribed(x: string, y: string, first: string, second: string, bs: seq<FormBlock>,
                       policy: UndescribedOrder)
    requires OrderUndescribed(policy, [x, y], bs) == [first, second]
    ensures ResolveSlots([], [Some(x), Some(y)], bs, policy) == [Slot(Some(first), None), Slot(Some(second), None)]
  {
    TwoUndescribedParts(x, y, first, second, bs, policy);
    UntitledTwo(first, second);
    NoDefaultSlot(x, y);
    MiddleOnly(ResolveSlots([], [Some(x), Some(y)], bs, policy), Untitled([first, second]),
               DefaultSlot([Some(x), Some(y)]));
  }

  lemma NoDefaultSlot(x: string, y: string)
    ensures DefaultSlot([Some(x)]) == [] && DefaultSlot([Some(x), Some(y)]) == []
  {
  }

  lemma MiddleOnly(r: seq<Slot>, u: seq<Slot>, d: seq<Slot>)
    requires r == [] + u + d && d == []
    ensures r == u
  {
  }

  lemma TwoUndescribedParts(x: string, y: string, first: string, second: string, bs: seq<FormBlock>,
                            policy: UndescribedOrder)
    requires OrderUndescribed(policy, [x, y], bs) == [first, second]
    ensures ResolveSlots([], [Some(x), Some(y)], bs, policy)
            == [] + Untitled([first, second]) + DefaultSlot([Some(x), Some(y)])
  {
    var keys := [Some(x), Some(y)];
    NothingDescribed(keys);
    UntitledPair(Some(x), Some(y));
    Resolved([], keys, bs, policy, [], [x, y], [first, second]);
  }

  /** No group metadata and one named bucket: one untitled slot. */
  lemma OneUndescribed(x: string, bs: seq<FormBlock>, policy: UndescribedOrder)
    requires OrderUndescribed(policy, [x], bs) == [x]
    ensures ResolveSlots([], [Some(x)], bs, policy) == [Slot(Some(x), None)]
  {
    OneUndescribedParts(x, bs, policy);
    UntitledOne(x);
    NoDefaultSlot(x, x);
    MiddleOnly(ResolveSlots([], [Some(x)], bs, policy), Untitled([x]), DefaultSlot([Some(x)]));
  }

  lemma OneUndescribedParts(x: string, bs: seq<FormBlock>, policy: UndescribedOrder)
    requires OrderUndescribed(policy, [x], bs) == [x]
    ensures ResolveSlots([], [Some(x)], bs, policy) == [] + Untitled([x]) + DefaultSlot([Some(x)])
  {
    NothingDescribed([Some(x)]);
    UndescribedCons(Some(x), [], []);
    assert UndescribedNames([Some(x)], []) == [x];
    Resolved([], [Some(x)], bs, policy, [], [x], [x]);
  }

  lemma IdsSwapped(x: string, y: string, bs: seq<FormBlock>)
    requires !StrLe(x, y)
    ensures OrderUndescribed(ById, [x, y], bs) == [y, x]
  {
    SortIdsCons(x, [y]);
    SortIdsCons(y, []);
    InsertIdPast(x, y);
  }

  lemma IdsInOrder(x: string, y: string, bs: seq<FormBlock>)
    requires StrLe(x, y)
    ensures OrderUndescribed(ById, [x, y], bs) == [x, y]
  {
    SortIdsCons(x, [y]);
    SortIdsCons(y, []);
    InsertIdFront(x, y);
  }

  lemma RequiredSecond(bs: seq<FormBlock>, x: string, y: string)
    requires !BucketRequired(bs, x) && BucketRequired(bs, y)
    ensures OrderUndescribed(RequiredFirst, [x, y], bs) == [y, x]
  {
    KeepCons(x, [y], bs, true);
    KeepCons(y, [], bs, true);
    KeepCons(x, [y], bs, false);
    KeepCons(y, [], bs, false);
  }

  lemma RequiredAlreadyFirst(bs: seq<FormBlock>, x: string, y: string)
    requires BucketRequired(bs, x) && !BucketRequired(bs, y)
    ensures OrderUndescribed(RequiredFirst, [x, y], bs) == [x, y]
  {
    KeepCons(x, [y], bs, true);
    KeepCons(y, [], bs, true);
    KeepCons(x, [y], bs, false);
    KeepCons(y, [], bs, false);
  }

  /** Without group metadata there is no described slot. */
  lemma NothingDescribed(keys: seq<GroupKey>)
    ensures DescribedFrom([], keys, 0) == []
  {
  }

  lemma {:induction false} NoneDescribed(ds: seq<GroupDetails>, keys: seq<GroupKey>, k: nat)
    requires k <= |ds|
    requires forall key :: key in keys ==> key == None
    ensures DescribedFrom(ds, keys, k) == []
    decreases |ds| - k
  {
    if k < |ds| {
      NoneDescribed(ds, keys, k + 1);
    }
  }

  lemma NoneUndescribed(keys: seq<GroupKey>, ds: seq<GroupDetails>)
    requires forall k :: k in keys ==> k == None
    ensures UndescribedNames(keys, ds) == []
  {
    var u := UndescribedNames(keys, ds);
    forall n ensures multiset(u)[n] == 0 {
      assert Some(n) !in keys;
      assert multiset(keys)[Some(n)] == 0;
    }
    assert multiset(u) == multiset{};
    assert |u| == |multiset(u)|;
  }

  lemma NothingToOrder(policy: UndescribedOrder, bs: seq<FormBlock>)
    ensures OrderUndescribed(policy, [], bs) == []
  {
    var o := OrderUndescribed(policy, [], bs);
    assert |o| == |multiset(o)|;
  }

  // The whole function.

  /** The flag-on output, given the surviving blocks, their bucket keys and the slots. */
  lemma FlagOn(blocks: seq<FormBlock>, groups: seq<GroupDetails>, policy: UndescribedOrder,
               visible: seq<FormBlock>, keys: seq<GroupKey>, slots: seq<Slot>)
    requires FilterVisible(blocks, NeverHidden) == visible
    requires GroupKeys(visible) == keys
    requires ResolveSlots(groups, keys, visible, policy) == slots
    ensures Generate(blocks, groups, true, policy) == BuildGroups(slots, visible, NoError)
  {
  }

  lemma BuildOne(s1: Slot, bs: seq<FormBlock>, g1: seq<Section>)
    requires SplitBucket(Select(bs, s1.key), NoError) == g1
    ensures BuildGroups([s1], bs, NoError) == [SectionGroup(s1.title, g1)]
  {
    assert [s1][0] == s1;
  }

  lemma BuildTwo(s1: Slot, s2: Slot, bs: seq<FormBlock>, g1: seq<Section>, g2: seq<Section>)
    requires SplitBucket(Select(bs, s1.key), NoError) == g1
    requires SplitBucket(Select(bs, s2.key), NoError) == g2
    ensures BuildGroups([s1, s2], bs, NoError) == [SectionGroup(s1.title, g1), SectionGroup(s2.title, g2)]
  {
    assert [s1, s2][0] == s1 && [s1, s2][1] == s2;
  }

  lemma BuildThree(s1: Slot, s2: Slot, s3: Slot, bs: seq<FormBlock>, g1: seq<Section>, g2: seq<Section>,
                   g3: seq<Section>)
    requires SplitBucket(Select(bs, s1.key), NoError) == g1
    requires SplitBucket(Select(bs, s2.key), NoError) == g2
    requires SplitBucket(Select(bs, s3.key), NoError) == g3
    ensures BuildGroups([s1, s2, s3], bs, NoError)
            == [SectionGroup(s1.title, g1), SectionGroup(s2.title, g2), SectionGroup(s3.title, g3)]
  {
    assert [s1, s2, s3][0] == s1 && [s1, s2, s3][1] == s2 && [s1, s2, s3][2] == s3;
  }

  lemma BuildCons(slot: Slot, slots: seq<Slot>, bs: seq<FormBlock>)
    ensures BuildGroups([slot] + slots, bs, NoError)
            == [SectionGroup(slot.title, SplitBucket(Select(bs, slot.key), NoError))] + BuildGroups(slots, bs, NoError)
  {
    assert ([slot] + slots)[1..] == slots;
  }

  /** Blocks that carry no group tag and are all shown: one untitled group. */
  lemma Untagged(blocks: seq<FormBlock>, groups: seq<GroupDetails>, policy: UndescribedOrder)
    requires blocks != []
    requires forall x :: x in blocks ==> Visible(x, NeverHidden) && x.group == None
    ensures Generate(blocks, groups, true, policy) == [SectionGroup(None, Zones(SortBlocks(blocks), NoError))]
  {
    ShownAll(blocks);
    var keys := GroupKeys(blocks);
    OnlyUntagged(keys);
    SelectTagged(blocks, None);
    NoneDescribed(groups, keys, 0);
    NoneUndescribed(keys, groups);
    NothingToOrder(policy, blocks);
    FlagOn(blocks, groups, policy, blocks, keys, [Slot(None, None)]);
    BuildCons(Slot(None, None), [], blocks);
  }

  /** With the flag off: one expanded section of the surviving blocks, laid out. */
  lemma FlagOff(blocks: seq<FormBlock>, groups: seq<GroupDetails>, policy: UndescribedOrder, visible: seq<FormBlock>)
    requires FilterVisible(blocks, NeverHidden) == visible
    ensures Generate(blocks, groups, false, policy) == [SectionGroup(None, [Sec(SortBlocks(visible))])]
  {
    NoErrorNoFlag(SortBlocks(visible), NoError);
  }
}
