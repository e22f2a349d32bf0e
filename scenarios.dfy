/**
 * The behaviour pinned down case by case for `generateGroupsAndSections`:
 * each lemma states the exact output of one call on a small form, with
 * nothing hidden by the authentication collaborator and no field error.
 * The blocks of each form are named parameters fixed by the requires
 * clauses. The order of undescribed groups is a parameter of the model;
 * every case here comes out the same under both policies.
 *
 * Each case is worked out in steps, one lemma per step, so that no single
 * proof has to evaluate the whole pipeline at once.
 */
module Scenarios {
  import opened Wrappers
  import opened FormTypes
  import opened StringOrder
  import opened BlockOrder
  import opened Visibility
  import opened Sections
  import opened Grouping
  import opened GroupResolver
  import opened GroupsAndSections
  import opened ScenarioSteps

  // Optional fields go to the back.

  lemma OptionalFieldsGoToTheBack(a: FormBlock, b: FormBlock, c: FormBlock, policy: UndescribedOrder)
    requires a == Item("a") && b == Item("b") && c == Item("c", required := true)
    ensures Generate([a, b, c], policy := policy)
            == [SectionGroup(None, [Sec([c]), Sec([a, b], CollapsedFooter)])]
  {
    Untagged([a, b, c], [], policy);
    OptionalSort(a, b, c);
    OptionalZones(a, b, c);
  }

  lemma OptionalSort(a: FormBlock, b: FormBlock, c: FormBlock)
    requires a == Item("a") && b == Item("b") && c == Item("c", required := true)
    ensures SortBlocks([a, b, c]) == [c, a, b]
  {
    SortPairSwapped(b, c);
    SortCons(a, [b, c]);
    OptionalInsert(a, b, c);
  }

  lemma OptionalInsert(a: FormBlock, b: FormBlock, c: FormBlock)
    requires a == Item("a") && b == Item("b") && c == Item("c", required := true)
    ensures Insert(a, [c, b]) == [c, a, b]
  {
    InsertBetween(a, c, b);
  }

  lemma OptionalZones(a: FormBlock, b: FormBlock, c: FormBlock)
    requires !a.isRequired && !b.isRequired && c.isRequired
    ensures Zones([c, a, b], NoError) == [Sec([c]), Sec([a, b], CollapsedFooter)]
  {
    var s := [c, a, b];
    ZonesAt(s, 0, 0);
    SlicesOfThree(c, a, b);
  }

  // Explicit order decides the layout; the required block is the expanded core.

  lemma OrderCollapse(a: FormBlock, b: FormBlock, c: FormBlock, d: FormBlock, policy: UndescribedOrder)
    requires a == Item("a", order := Some(0)) && b == Item("b", order := Some(1))
    requires c == Item("c", required := true, order := Some(2)) && d == Item("d", order := Some(3))
    ensures Generate([a, b, c, d], policy := policy)
            == [SectionGroup(None, [Sec([a, b], CollapsedInline), Sec([c]), Sec([d], CollapsedFooter)])]
  {
    Untagged([a, b, c, d], [], policy);
    OrderedFour(a, b, c, d);
    CollapseZones(a, b, c, d);
  }

  lemma OrderedFour(a: FormBlock, b: FormBlock, c: FormBlock, d: FormBlock)
    requires a.order == Some(0) && b.order == Some(1) && c.order == Some(2) && d.order == Some(3)
    ensures SortBlocks([a, b, c, d]) == [a, b, c, d]
  {
    SortedCons(d, []);
    SortedCons(c, [d]);
    SortedCons(b, [c, d]);
    SortedCons(a, [b, c, d]);
    SortOfSorted([a, b, c, d]);
  }

  lemma CollapseZones(a: FormBlock, b: FormBlock, c: FormBlock, d: FormBlock)
    requires !a.isRequired && !b.isRequired && c.isRequired && !d.isRequired
    ensures Zones([a, b, c, d], NoError) == [Sec([a, b], CollapsedInline), Sec([c]), Sec([d], CollapsedFooter)]
  {
    var s := [a, b, c, d];
    ZonesAt(s, 2, 2);
    SlicesOfFour(a, b, c, d);
  }

  // A nested object is laid out as one block.

  lemma NestedObjectNotUnwrapped(a: FormBlock, g: FormBlock, d: FormBlock, policy: UndescribedOrder)
    requires a == Item("a", order := Some(0)) && d == Item("d", order := Some(2))
    requires g == Object([Item("b", order := Some(0)), Item("c", required := true, order := Some(1))], "group1",
                         required := true, order := Some(1))
    ensures Generate([a, g, d], policy := policy)
            == [SectionGroup(None, [Sec([a], CollapsedInline), Sec([g]), Sec([d], CollapsedFooter)])]
  {
    Untagged([a, g, d], [], policy);
    OrderedThree(a, g, d);
    NestedZones(a, g, d);
  }

  lemma OrderedThree(a: FormBlock, g: FormBlock, d: FormBlock)
    requires a.order == Some(0) && g.order == Some(1) && d.order == Some(2)
    ensures SortBlocks([a, g, d]) == [a, g, d]
  {
    SortedCons(d, []);
    SortedCons(g, [d]);
    SortedCons(a, [g, d]);
    SortOfSorted([a, g, d]);
  }

  lemma NestedZones(a: FormBlock, g: FormBlock, d: FormBlock)
    requires !a.isRequired && g.isRequired && !d.isRequired
    ensures Zones([a, g, d], NoError) == [Sec([a], CollapsedInline), Sec([g]), Sec([d], CollapsedFooter)]
  {
    var s := [a, g, d];
    ZonesAt(s, 1, 1);
    SlicesOfThree(a, g, d);
  }

  // Groups are split up and laid out one by one.

  lemma SplitGroups(a: FormBlock, b: FormBlock, c: FormBlock, d: FormBlock, policy: UndescribedOrder)
    requires a == Item("a", group := Some("b"), order := Some(1)) && b == Item("b", group := Some("b"), order := Some(0))
    requires c == Item("c", required := true, group := Some("a")) && d == Item("d", group := Some("a"))
    ensures Generate([a, b, c, d], policy := policy)
            == [SectionGroup(None, [Sec([c]), Sec([d], CollapsedFooter)]),
                SectionGroup(None, [Sec([b, a], CollapsedGroup)])]
  {
    var bs := [a, b, c, d];
    var slots := [Slot(Some("a"), None), Slot(Some("b"), None)];
    ShownAll(bs);
    SplitFormHolds(a, b, c, d);
    SplitKeys(a, b, c, d);
    SplitSlots(a, b, c, d, policy);
    FlagOn(bs, [], policy, bs, [Some("b"), Some("a")], slots);
    SplitLayout(a, b, c, d);
  }

  /** What the layout of the split form depends on: the tags, required flags and orders. */
  predicate SplitForm(a: FormBlock, b: FormBlock, c: FormBlock, d: FormBlock)
  {
    && a.group == Some("b") && b.group == Some("b") && c.group == Some("a") && d.group == Some("a")
    && !a.isRequired && !b.isRequired && a.order.Some? && b.order.Some? && b.order.value < a.order.value
    && c.isRequired && c.order == None && !d.isRequired && d.order == None
  }

  lemma SplitFormHolds(a: FormBlock, b: FormBlock, c: FormBlock, d: FormBlock)
    requires a == Item("a", group := Some("b"), order := Some(1)) && b == Item("b", group := Some("b"), order := Some(0))
    requires c == Item("c", required := true, group := Some("a")) && d == Item("d", group := Some("a"))
    ensures SplitForm(a, b, c, d)
  {
  }

  lemma SplitKeys(a: FormBlock, b: FormBlock, c: FormBlock, d: FormBlock)
    requires a.group == Some("b") && b.group == Some("b") && c.group == Some("a") && d.group == Some("a")
    ensures GroupKeys([a, b, c, d]) == [Some("b"), Some("a")]
  {
    KeysOne(a);
    KeysTwo(a, b, [Some("b")]);
    KeysThree(a, b, c, [Some("b")]);
    KeysFour(a, b, c, d, [Some("b"), Some("a")]);
  }

  lemma SplitBuckets(a: FormBlock, b: FormBlock, c: FormBlock, d: FormBlock)
    requires a.group == Some("b") && b.group == Some("b") && c.group == Some("a") && d.group == Some("a")
    ensures Select([a, b, c, d], Some("a")) == [c, d]
    ensures Select([a, b, c, d], Some("b")) == [a, b]
  {
    assert [a, b, c, d] == [a, b] + [c, d];
    SelectAppend([a, b], [c, d], Some("a"));
    SelectAppend([a, b], [c, d], Some("b"));
    SelectTagged([a, b], Some("b"));
    SelectTagged([c, d], Some("a"));
    SelectNone([a, b], Some("a"));
    SelectNone([c, d], Some("b"));
  }

  lemma SplitSlots(a: FormBlock, b: FormBlock, c: FormBlock, d: FormBlock, policy: UndescribedOrder)
    requires a == Item("a", group := Some("b"), order := Some(1)) && b == Item("b", group := Some("b"), order := Some(0))
    requires c == Item("c", required := true, group := Some("a")) && d == Item("d", group := Some("a"))
    ensures ResolveSlots([], [Some("b"), Some("a")], [a, b, c, d], policy)
            == [Slot(Some("a"), None), Slot(Some("b"), None)]
  {
    SplitOrder(a, b, c, d, policy);
    TwoUndescribed("b", "a", "a", "b", [a, b, c, d], policy);
  }

  /** Either policy puts group `a`, the one with a required field, first. */
  lemma SplitOrder(a: FormBlock, b: FormBlock, c: FormBlock, d: FormBlock, policy: UndescribedOrder)
    requires a == Item("a", group := Some("b"), order := Some(1)) && b == Item("b", group := Some("b"), order := Some(0))
    requires c == Item("c", required := true, group := Some("a")) && d == Item("d", group := Some("a"))
    ensures OrderUndescribed(policy, ["b", "a"], [a, b, c, d]) == ["a", "b"]
  {
    var bs := [a, b, c, d];
    match policy
    case ById =>
      IdsSwapped("b", "a", bs);
    case RequiredFirst =>
      SplitBuckets(a, b, c, d);
      assert BucketRequired(bs, "a") by {
        assert [c, d][0].isRequired;
      }
      RequiredSecond(bs, "b", "a");
  }

  lemma SplitLayout(a: FormBlock, b: FormBlock, c: FormBlock, d: FormBlock)
    requires SplitForm(a, b, c, d)
    ensures BuildGroups([Slot(Some("a"), None), Slot(Some("b"), None)], [a, b, c, d], NoError)
            == [SectionGroup(None, [Sec([c]), Sec([d], CollapsedFooter)]),
                SectionGroup(None, [Sec([b, a], CollapsedGroup)])]
  {
    SplitBuckets(a, b, c, d);
    RequiredThenFooter(c, d);
    OrderedCollapsed(a, b);
    BuildTwo(Slot(Some("a"), None), Slot(Some("b"), None), [a, b, c, d],
             [Sec([c]), Sec([d], CollapsedFooter)], [Sec([b, a], CollapsedGroup)]);
  }

  /** A bucket with one required block then one optional block. */
  lemma RequiredThenFooter(c: FormBlock, d: FormBlock)
    requires c.isRequired && c.order == None && !d.isRequired && d.order == None
    ensures SplitBucket([c, d], NoError) == [Sec([c]), Sec([d], CollapsedFooter)]
  {
    SortPairKept(c, d);
    ZonesRequiredOptional(c, d);
  }

  /** A bucket of two optional blocks with explicit orders, given in reverse. */
  lemma OrderedCollapsed(a: FormBlock, b: FormBlock)
    requires !a.isRequired && !b.isRequired && a.order.Some? && b.order.Some? && b.order.value < a.order.value
    ensures SplitBucket([a, b], NoError) == [Sec([b, a], CollapsedGroup)]
  {
    SortPairSwapped(a, b);
    ZonesOptionalPair(b, a);
  }

  // A group whose fields are all hidden does not appear.

  lemma HiddenGroupDropped(x: FormBlock, h: FormBlock, policy: UndescribedOrder)
    requires x == Item("x", required := true, group := Some("a"))
    requires h == Item("hidden", group := Some("b"), hidden := true)
    ensures Generate([x, h], policy := policy) == [SectionGroup(None, [Sec([x])])]
  {
    var slots := [Slot(Some("a"), None)];
    FilterCons(x, [h]);
    FilterCons(h, []);
    HiddenKeys(x);
    HiddenSlots(x, policy);
    FlagOn([x, h], [], policy, [x], [Some("a")], slots);
    HiddenLayout(x);
    BuildOne(slots[0], [x], [Sec([x])]);
  }

  lemma HiddenKeys(x: FormBlock)
    requires x.group == Some("a")
    ensures GroupKeys([x]) == [Some("a")]
  {
    KeysOne(x);
  }

  lemma HiddenSlots(x: FormBlock, policy: UndescribedOrder)
    requires x == Item("x", required := true, group := Some("a"))
    ensures ResolveSlots([], [Some("a")], [x], policy) == [Slot(Some("a"), None)]
  {
    HiddenOrder(x, policy);
    OneUndescribed("a", [x], policy);
  }

  lemma HiddenOrder(x: FormBlock, policy: UndescribedOrder)
    requires x == Item("x", required := true, group := Some("a"))
    ensures OrderUndescribed(policy, ["a"], [x]) == ["a"]
  {
    match policy
    case ById =>
      SortIdsCons("a", []);
    case RequiredFirst =>
      SelectTagged([x], Some("a"));
      assert BucketRequired([x], "a") by {
        assert [x][0].isRequired;
      }
      KeepCons("a", [], [x], true);
      KeepCons("a", [], [x], false);
  }

  lemma HiddenLayout(x: FormBlock)
    requires x == Item("x", required := true, group := Some("a"))
    ensures SplitBucket(Select([x], Some("a")), NoError) == [Sec([x])]
  {
    SelectTagged([x], Some("a"));
    SortCons(x, []);
    ZonesAt([x], 0, 0);
    assert [x][..0] == [] && [x][0..1] == [x] && [x][1..] == [];
  }

  // A nested object goes into the group of its own tag; the tags of its children are ignored.

  lemma NestedTagsIgnored(z: FormBlock, d: FormBlock, a: FormBlock, policy: UndescribedOrder)
    requires z == Object([Item("b", group := Some("b"), order := Some(0)), Item("c", required := true, group := Some("c"))],
                         "z_group", required := true, group := Some("a"), order := Some(2))
    requires d == Item("d", group := Some("b"), order := Some(1))
    requires a == Item("a", required := true, group := Some("a"), order := Some(1))
    ensures Generate([z, d, a], policy := policy)
            == [SectionGroup(None, [Sec([a, z])]), SectionGroup(None, [Sec([d], CollapsedGroup)])]
  {
    var bs := [z, d, a];
    var slots := [Slot(Some("a"), None), Slot(Some("b"), None)];
    ShownAll(bs);
    NestedTagKeys(z, d, a);
    NestedTagSlots(z, d, a, policy);
    FlagOn(bs, [], policy, bs, [Some("a"), Some("b")], slots);
    NestedTagLayout(z, d, a);
  }

  lemma NestedTagKeys(z: FormBlock, d: FormBlock, a: FormBlock)
    requires z.group == Some("a") && d.group == Some("b") && a.group == Some("a")
    ensures GroupKeys([z, d, a]) == [Some("a"), Some("b")]
  {
    KeysOne(z);
    KeysTwo(z, d, [Some("a")]);
    KeysThree(z, d, a, [Some("a"), Some("b")]);
  }

  lemma NestedTagBuckets(z: FormBlock, d: FormBlock, a: FormBlock)
    requires z.group == Some("a") && d.group == Some("b") && a.group == Some("a")
    ensures Select([z, d, a], Some("a")) == [z, a]
    ensures Select([z, d, a], Some("b")) == [d]
  {
    SelectCons(z, [d, a], Some("a"));
    SelectCons(d, [a], Some("a"));
    SelectTagged([a], Some("a"));
    SelectCons(z, [d, a], Some("b"));
    SelectCons(d, [a], Some("b"));
    SelectNone([a], Some("b"));
  }

  lemma NestedTagSlots(z: FormBlock, d: FormBlock, a: FormBlock, policy: UndescribedOrder)
    requires z.group == Some("a") && d.group == Some("b") && a.group == Some("a")
    requires z.isRequired && !d.isRequired
    ensures ResolveSlots([], [Some("a"), Some("b")], [z, d, a], policy) == [Slot(Some("a"), None), Slot(Some("b"), None)]
  {
    NestedTagOrder(z, d, a, policy);
    TwoUndescribed("a", "b", "a", "b", [z, d, a], policy);
  }

  /** Either policy keeps group `a`, the one with a required field, first. */
  lemma NestedTagOrder(z: FormBlock, d: FormBlock, a: FormBlock, policy: UndescribedOrder)
    requires z.group == Some("a") && d.group == Some("b") && a.group == Some("a")
    requires z.isRequired && !d.isRequired
    ensures OrderUndescribed(policy, ["a", "b"], [z, d, a]) == ["a", "b"]
  {
    var bs := [z, d, a];
    match policy
    case ById =>
      IdsInOrder("a", "b", bs);
    case RequiredFirst =>
      NestedTagBuckets(z, d, a);
      assert BucketRequired(bs, "a") by {
        assert [z, a][0].isRequired;
      }
      RequiredAlreadyFirst(bs, "a", "b");
  }

  lemma NestedTagLayout(z: FormBlock, d: FormBlock, a: FormBlock)
    requires z.group == Some("a") && d.group == Some("b") && a.group == Some("a")
    requires z.isRequired && z.order == Some(2) && a.isRequired && a.order == Some(1)
    requires !d.isRequired && d.order.Some?
    ensures BuildGroups([Slot(Some("a"), None), Slot(Some("b"), None)], [z, d, a], NoError)
            == [SectionGroup(None, [Sec([a, z])]), SectionGroup(None, [Sec([d], CollapsedGroup)])]
  {
    NestedTagBuckets(z, d, a);
    NestedTagSections(z, d, a);
    BuildTwo(Slot(Some("a"), None), Slot(Some("b"), None), [z, d, a], [Sec([a, z])], [Sec([d], CollapsedGroup)]);
  }

  lemma NestedTagSections(z: FormBlock, d: FormBlock, a: FormBlock)
    requires z.isRequired && z.order == Some(2) && a.isRequired && a.order == Some(1)
    requires !d.isRequired && d.order.Some?
    ensures SplitBucket([z, a], NoError) == [Sec([a, z])]
    ensures SplitBucket([d], NoError) == [Sec([d], CollapsedGroup)]
  {
    RequiredPair(z, a);
    LoneOptional(d);
  }

  /** Two required blocks with explicit orders, given in reverse: one expanded section. */
  lemma RequiredPair(z: FormBlock, a: FormBlock)
    requires z.isRequired && z.order == Some(2) && a.isRequired && a.order == Some(1)
    ensures SplitBucket([z, a], NoError) == [Sec([a, z])]
  {
    SortPairSwapped(z, a);
    ZonesRequiredPair(a, z);
  }

  /** A bucket of one optional block: one collapsed group section. */
  lemma LoneOptional(x: FormBlock)
    requires !x.isRequired
    ensures SplitBucket([x], NoError) == [Sec([x], CollapsedGroup)]
  {
    SortOfSorted([x]);
    ZonesCollapsed([x]);
  }

  // Without the feature flag: one expanded section, still laid out.

  lemma FlagOffOneSection(z: FormBlock, d: FormBlock, a: FormBlock, policy: UndescribedOrder)
    requires z == Object([Item("b", group := Some("b"), order := Some(0)), Item("c", required := true, group := Some("a"))],
                         "z_group")
    requires d == Item("d", group := Some("a")) && a == Item("a", group := Some("b"), order := Some(1))
    ensures Generate([z, d, a], featureFlag := false, policy := policy) == [SectionGroup(None, [Sec([a, d, z])])]
  {
    ShownAll([z, d, a]);
    FlagOff([z, d, a], [], policy, [z, d, a]);
    FlagOffLayout(z, d, a);
  }

  lemma FlagOffLayout(z: FormBlock, d: FormBlock, a: FormBlock)
    requires z == Object([Item("b", group := Some("b"), order := Some(0)), Item("c", required := true, group := Some("a"))],
                         "z_group")
    requires d == Item("d", group := Some("a")) && a == Item("a", group := Some("b"), order := Some(1))
    ensures SortBlocks([z, d, a]) == [a, d, z]
  {
    SortPairSwapped(d, a);
    SortCons(z, [d, a]);
    FlagOffInsert(z, d, a);
  }

  lemma FlagOffInsert(z: FormBlock, d: FormBlock, a: FormBlock)
    requires z == Object([Item("b", group := Some("b"), order := Some(0)), Item("c", required := true, group := Some("a"))],
                         "z_group")
    requires d == Item("d", group := Some("a")) && a == Item("a", group := Some("b"), order := Some(1))
    ensures Insert(z, [a, d]) == [a, d, z]
  {
    InsertLast(z, a, d);
  }

  // Group metadata titles the groups and orders them; untagged fields come last.

  lemma TitledGroups(a: FormBlock, b: FormBlock, c: FormBlock, d: FormBlock, e: FormBlock, policy: UndescribedOrder)
    requires a == Item("a", group := Some("b"), order := Some(1)) && b == Item("b", group := Some("b"), order := Some(0))
    requires c == Item("c", required := true, group := Some("a")) && d == Item("d", group := Some("a"))
    requires e == Item("e")
    ensures Generate([a, b, c, d, e], [GroupDetails("b", "Group B"), GroupDetails("a", "Group A")], policy := policy)
            == [SectionGroup(Some("Group B"), [Sec([b, a], CollapsedGroup)]),
                SectionGroup(Some("Group A"), [Sec([c]), Sec([d], CollapsedFooter)]),
                SectionGroup(None, [Sec([e], CollapsedGroup)])]
  {
    var bs := [a, b, c, d, e];
    var ds := [GroupDetails("b", "Group B"), GroupDetails("a", "Group A")];
    var keys := [Some("b"), Some("a"), None];
    var slots := [Slot(Some("b"), Some("Group B")), Slot(Some("a"), Some("Group A")), Slot(None, None)];
    ShownAll(bs);
    SplitFormHolds(a, b, c, d);
    TitledKeys(a, b, c, d, e);
    TitledSlots(ds, keys, bs, policy);
    FlagOn(bs, ds, policy, bs, keys, slots);
    TitledLayout(a, b, c, d, e);
  }

  lemma TitledKeys(a: FormBlock, b: FormBlock, c: FormBlock, d: FormBlock, e: FormBlock)
    requires a.group == Some("b") && b.group == Some("b") && c.group == Some("a") && d.group == Some("a")
    requires e.group == None
    ensures GroupKeys([a, b, c, d, e]) == [Some("b"), Some("a"), None]
  {
    SplitKeys(a, b, c, d);
    KeysFive(a, b, c, d, e, [Some("b"), Some("a")]);
  }

  lemma TitledBuckets(a: FormBlock, b: FormBlock, c: FormBlock, d: FormBlock, e: FormBlock)
    requires a.group == Some("b") && b.group == Some("b") && c.group == Some("a") && d.group == Some("a")
    requires e.group == None
    ensures Select([a, b, c, d, e], Some("b")) == [a, b]
    ensures Select([a, b, c, d, e], Some("a")) == [c, d]
    ensures Select([a, b, c, d, e], None) == [e]
  {
    assert [a, b, c, d, e] == [a, b, c, d] + [e];
    SelectAppend([a, b, c, d], [e], Some("b"));
    SelectAppend([a, b, c, d], [e], Some("a"));
    SelectAppend([a, b, c, d], [e], None);
    SplitBuckets(a, b, c, d);
    SelectNone([a, b, c, d], None);
    SelectNone([e], Some("a"));
    SelectNone([e], Some("b"));
    SelectTagged([e], None);
  }

  lemma TitledSlots(ds: seq<GroupDetails>, keys: seq<GroupKey>, bs: seq<FormBlock>, policy: UndescribedOrder)
    requires ds == [GroupDetails("b", "Group B"), GroupDetails("a", "Group A")]
    requires keys == [Some("b"), Some("a"), None]
    ensures ResolveSlots(ds, keys, bs, policy)
            == [Slot(Some("b"), Some("Group B")), Slot(Some("a"), Some("Group A")), Slot(None, None)]
  {
    var described := [Slot(Some("b"), Some("Group B")), Slot(Some("a"), Some("Group A"))];
    TitledDescribed(ds, keys);
    AllDescribed(ds, keys);
    NothingToOrder(policy, bs);
    Resolved(ds, keys, bs, policy, described, [], []);
    assert None in keys;
    assert Untitled([]) == [];
  }

  lemma TitledDescribed(ds: seq<GroupDetails>, keys: seq<GroupKey>)
    requires ds == [GroupDetails("b", "Group B"), GroupDetails("a", "Group A")]
    requires keys == [Some("b"), Some("a"), None]
    ensures DescribedFrom(ds, keys, 0) == [Slot(Some("b"), Some("Group B")), Slot(Some("a"), Some("Group A"))]
  {
    assert Described(ds, "b") by {
      assert ds[0].id == "b";
    }
    assert FirstIndex(ds, "b") == 0;
    assert FirstIndex(ds, "a") == 1 by {
      assert ds[0].id != "a" && ds[1].id == "a";
    }
    assert DescribedFrom(ds, keys, 2) == [];
  }

  lemma AllDescribed(ds: seq<GroupDetails>, keys: seq<GroupKey>)
    requires ds == [GroupDetails("b", "Group B"), GroupDetails("a", "Group A")]
    requires keys == [Some("b"), Some("a"), None]
    ensures UndescribedNames(keys, ds) == []
  {
    assert Described(ds, "b") by {
      assert ds[0].id == "b";
    }
    assert Described(ds, "a") by {
      assert ds[1].id == "a";
    }
    assert keys == [Some("b")] + ([Some("a")] + [None]);
    UndescribedCons(Some("b"), [Some("a"), None], ds);
    UndescribedCons(Some("a"), [None], ds);
    UndescribedCons(None, [], ds);
  }

  lemma TitledLayout(a: FormBlock, b: FormBlock, c: FormBlock, d: FormBlock, e: FormBlock)
    requires SplitForm(a, b, c, d) && e.group == None && !e.isRequired
    ensures BuildGroups([Slot(Some("b"), Some("Group B")), Slot(Some("a"), Some("Group A")), Slot(None, None)],
                        [a, b, c, d, e], NoError)
            == [SectionGroup(Some("Group B"), [Sec([b, a], CollapsedGroup)]),
                SectionGroup(Some("Group A"), [Sec([c]), Sec([d], CollapsedFooter)]),
                SectionGroup(None, [Sec([e], CollapsedGroup)])]
  {
    TitledBuckets(a, b, c, d, e);
    RequiredThenFooter(c, d);
    OrderedCollapsed(a, b);
    LoneOptional(e);
    BuildThree(Slot(Some("b"), Some("Group B")), Slot(Some("a"), Some("Group A")), Slot(None, None), [a, b, c, d, e],
               [Sec([b, a], CollapsedGroup)], [Sec([c]), Sec([d], CollapsedFooter)], [Sec([e], CollapsedGroup)]);
  }
}
