/**
 * `generateGroupsAndSections`: the filter, the partitioner, the splitter and
 * the resolver put together, behind the feature flag.
 */
module GroupsAndSections {
  import opened Wrappers
  import opened FormTypes
  import opened BlockOrder
  import opened Visibility
  import opened Sections
  import opened Grouping
  import opened GroupResolver

  /** One section group per slot: the slot's title over its bucket's sections. */
  function BuildGroups(slots: seq<Slot>, visible: seq<FormBlock>, fieldHasError: Path -> bool): (r: seq<SectionGroup>)
    ensures |r| == |slots|
    ensures forall i :: 0 <= i < |r| ==>
              r[i] == SectionGroup(slots[i].title, SplitBucket(Select(visible, slots[i].key), fieldHasError))
  {
    if slots == [] then []
    else
      [SectionGroup(slots[0].title, SplitBucket(Select(visible, slots[0].key), fieldHasError))]
      + BuildGroups(slots[1..], visible, fieldHasError)
  }

  /**
   * The section groups of a form: with the flag on, one group per distinct
   * tag among the surviving blocks; with the flag off, every surviving block
   * goes, laid out, into one expanded section of one untitled group.
   */
  function GenerateGroupsAndSections(blocks: seq<FormBlock>, groups: seq<GroupDetails>, featureFlag: bool,
                                     isHiddenAuthField: Path -> bool, fieldHasError: Path -> bool,
                                     policy: UndescribedOrder): (r: seq<SectionGroup>)
    ensures featureFlag ==> |r| == |GroupKeys(FilterVisible(blocks, isHiddenAuthField))|
    ensures !featureFlag ==> |r| == 1
  {
    var visible := FilterVisible(blocks, isHiddenAuthField);
    if !featureFlag then
      var sorted := SortBlocks(visible);
      [SectionGroup(None, [Section(sorted, Expanded, AnyError(sorted, fieldHasError))])]
    else
      var slots := ResolveSlots(groups, GroupKeys(visible), visible, policy);
      NoDupSameSet(SlotKeys(slots), GroupKeys(visible));
      BuildGroups(slots, visible, fieldHasError)
  }

  /** The group tag shared by the blocks of a non-empty section group. */
  function Tag(g: SectionGroup): GroupKey
    requires SectionBlocks(g.sections) != []
  {
    SectionBlocks(g.sections)[0].group
  }

  /** Every block of every group carries the group's tag. */
  predicate TaggedAlike(r: seq<SectionGroup>)
  {
    forall i :: 0 <= i < |r| ==>
      SectionBlocks(r[i].sections) != [] &&
      forall x :: x in SectionBlocks(r[i].sections) ==> x.group == Tag(r[i])
  }

  lemma {:induction false} BuildGroupsBlocks(slots: seq<Slot>, visible: seq<FormBlock>, fieldHasError: Path -> bool)
    ensures multiset(GroupBlocks(BuildGroups(slots, visible, fieldHasError)))
            == multiset(SelectAll(visible, SlotKeys(slots)))
  {
    if slots != [] {
      var g := BuildGroups(slots, visible, fieldHasError);
      var bucket := Select(visible, slots[0].key);
      BuildGroupsBlocks(slots[1..], visible, fieldHasError);
      BuildGroupsCons(slots, visible, fieldHasError);
      SlotKeysCons(slots);
      calc {
        multiset(GroupBlocks(g));
        multiset(SectionBlocks(g[0].sections) + GroupBlocks(g[1..]));
        multiset(SectionBlocks(g[0].sections)) + multiset(GroupBlocks(g[1..]));
        multiset(bucket) + multiset(SelectAll(visible, SlotKeys(slots[1..])));
        multiset(SelectAll(visible, SlotKeys(slots)));
      }
    }
  }

  lemma BuildGroupsCons(slots: seq<Slot>, visible: seq<FormBlock>, fieldHasError: Path -> bool)
    requires slots != []
    ensures BuildGroups(slots, visible, fieldHasError)[0].sections == SplitBucket(Select(visible, slots[0].key), fieldHasError)
    ensures BuildGroups(slots, visible, fieldHasError)[1..] == BuildGroups(slots[1..], visible, fieldHasError)
  {
  }

  lemma SlotKeysCons(slots: seq<Slot>)
    requires slots != []
    ensures SlotKeys(slots)[0] == slots[0].key && SlotKeys(slots)[1..] == SlotKeys(slots[1..])
  {
  }

  /** Each group built from a bucket key holds that bucket, tagged alike, titled by its slot. */
  lemma GroupsMatchSlots(slots: seq<Slot>, visible: seq<FormBlock>, fieldHasError: Path -> bool)
    requires forall i :: 0 <= i < |slots| ==> slots[i].key in GroupKeys(visible)
    ensures FollowsSlots(BuildGroups(slots, visible, fieldHasError), slots, visible)
  {
    var r := BuildGroups(slots, visible, fieldHasError);
    forall i | 0 <= i < |r|
      ensures SectionBlocks(r[i].sections) != []
      ensures forall x :: x in SectionBlocks(r[i].sections) ==> x.group == slots[i].key
    {
      var bucket := Select(visible, slots[i].key);
      BucketNonEmpty(visible, slots[i].key);
      assert bucket[0] in multiset(SectionBlocks(r[i].sections));
      forall x | x in SectionBlocks(r[i].sections) ensures x.group == slots[i].key {
        assert x in multiset(bucket);
      }
    }
  }

  /** The slots of a flag-on run: every bucket of the surviving blocks once. */
  lemma SlotsOfRun(visible: seq<FormBlock>, groups: seq<GroupDetails>, policy: UndescribedOrder)
    ensures var slots := ResolveSlots(groups, GroupKeys(visible), visible, policy);
            && NoDup(SlotKeys(slots))
            && (forall k :: k in SlotKeys(slots) <==> k in GroupKeys(visible))
            && (forall i :: 0 <= i < |slots| ==> slots[i].key in GroupKeys(visible))
  {
    var slots := ResolveSlots(groups, GroupKeys(visible), visible, policy);
    forall i | 0 <= i < |slots| ensures slots[i].key in GroupKeys(visible) {
      assert SlotKeys(slots)[i] == slots[i].key;
    }
  }

  /**
   * Partition: the blocks shown are exactly the surviving input blocks, each
   * as often as in the input (nothing duplicated, nothing lost but the hidden).
   */
  lemma Partition(blocks: seq<FormBlock>, groups: seq<GroupDetails>, featureFlag: bool,
                  isHiddenAuthField: Path -> bool, fieldHasError: Path -> bool, policy: UndescribedOrder)
    ensures var r := GenerateGroupsAndSections(blocks, groups, featureFlag, isHiddenAuthField, fieldHasError, policy);
            multiset(GroupBlocks(r)) == multiset(FilterVisible(blocks, isHiddenAuthField))
  {
    var visible := FilterVisible(blocks, isHiddenAuthField);
    if featureFlag {
      PartitionOn(visible, groups, fieldHasError, policy);
    } else {
      PartitionOff(visible, fieldHasError);
    }
  }

  lemma PartitionOn(visible: seq<FormBlock>, groups: seq<GroupDetails>, fieldHasError: Path -> bool,
                    policy: UndescribedOrder)
    ensures multiset(GroupBlocks(BuildGroups(ResolveSlots(groups, GroupKeys(visible), visible, policy), visible, fieldHasError)))
            == multiset(visible)
  {
    var keys := GroupKeys(visible);
    var slots := ResolveSlots(groups, keys, visible, policy);
    SlotsOfRun(visible, groups, policy);
    forall b | b in visible ensures b.group in SlotKeys(slots) {
      assert b.group in keys;
    }
    PartitionSlots(slots, visible, fieldHasError);
  }

  lemma PartitionSlots(slots: seq<Slot>, visible: seq<FormBlock>, fieldHasError: Path -> bool)
    requires NoDup(SlotKeys(slots))
    requires forall b :: b in visible ==> b.group in SlotKeys(slots)
    ensures multiset(GroupBlocks(BuildGroups(slots, visible, fieldHasError))) == multiset(visible)
  {
    BuildGroupsBlocks(slots, visible, fieldHasError);
    BucketsPartition(visible, SlotKeys(slots));
  }

  lemma PartitionOff(visible: seq<FormBlock>, fieldHasError: Path -> bool)
    ensures var sorted := SortBlocks(visible);
            multiset(GroupBlocks([SectionGroup(None, [Section(sorted, Expanded, AnyError(sorted, fieldHasError))])]))
            == multiset(visible)
  {
    var sorted := SortBlocks(visible);
    var r := [SectionGroup(None, [Section(sorted, Expanded, AnyError(sorted, fieldHasError))])];
    var s := r[0].sections;
    assert SectionBlocks(s) == s[0].blocks + SectionBlocks(s[1..]);
    assert GroupBlocks(r) == SectionBlocks(s) + GroupBlocks(r[1..]);
  }

  /** A block is shown exactly when it is in the input and not hidden. */
  lemma ShownIffVisible(blocks: seq<FormBlock>, groups: seq<GroupDetails>, featureFlag: bool,
                        isHiddenAuthField: Path -> bool, fieldHasError: Path -> bool, policy: UndescribedOrder)
    ensures var r := GenerateGroupsAndSections(blocks, groups, featureFlag, isHiddenAuthField, fieldHasError, policy);
            forall x :: x in GroupBlocks(r) <==> x in blocks && Visible(x, isHiddenAuthField)
  {
    var r := GenerateGroupsAndSections(blocks, groups, featureFlag, isHiddenAuthField, fieldHasError, policy);
    var visible := FilterVisible(blocks, isHiddenAuthField);
    Partition(blocks, groups, featureFlag, isHiddenAuthField, fieldHasError, policy);
    forall x ensures x in GroupBlocks(r) <==> x in visible {
      assert x in GroupBlocks(r) <==> x in multiset(GroupBlocks(r));
      assert x in visible <==> x in multiset(visible);
    }
  }

  /** No group and no section is empty, and every group has one of the two section shapes. */
  predicate WellFormedGroups(r: seq<SectionGroup>)
  {
    forall i :: 0 <= i < |r| ==> |r[i].sections| > 0 && NoEmptySection(r[i].sections) && WellShaped(r[i].sections)
  }

  /**
   * With the flag on, no group and no section is empty, and every group has
   * one of the two section shapes.
   */
  lemma GroupsWellFormed(blocks: seq<FormBlock>, groups: seq<GroupDetails>,
                         isHiddenAuthField: Path -> bool, fieldHasError: Path -> bool, policy: UndescribedOrder)
    ensures WellFormedGroups(GenerateGroupsAndSections(blocks, groups, true, isHiddenAuthField, fieldHasError, policy))
  {
    var visible := FilterVisible(blocks, isHiddenAuthField);
    var r := BuildGroups(ResolveSlots(groups, GroupKeys(visible), visible, policy), visible, fieldHasError);
    assert r == GenerateGroupsAndSections(blocks, groups, true, isHiddenAuthField, fieldHasError, policy);
    RunWellFormed(visible, groups, fieldHasError, policy);
  }

  lemma RunWellFormed(visible: seq<FormBlock>, groups: seq<GroupDetails>, fieldHasError: Path -> bool,
                      policy: UndescribedOrder)
    ensures WellFormedGroups(BuildGroups(ResolveSlots(groups, GroupKeys(visible), visible, policy), visible, fieldHasError))
  {
    SlotsOfRun(visible, groups, policy);
    SlotGroupsWellFormed(ResolveSlots(groups, GroupKeys(visible), visible, policy), visible, fieldHasError);
  }

  lemma SlotGroupsWellFormed(slots: seq<Slot>, visible: seq<FormBlock>, fieldHasError: Path -> bool)
    requires forall i :: 0 <= i < |slots| ==> slots[i].key in GroupKeys(visible)
    ensures WellFormedGroups(BuildGroups(slots, visible, fieldHasError))
  {
    var r := BuildGroups(slots, visible, fieldHasError);
    forall i | 0 <= i < |r| ensures |r[i].sections| > 0 && WellShaped(r[i].sections) {
      BucketNonEmpty(visible, slots[i].key);
    }
  }

  /** What the groups built from resolved slots inherit from them. */
  predicate FollowsSlots(r: seq<SectionGroup>, slots: seq<Slot>, visible: seq<FormBlock>)
  {
    && |r| == |slots|
    && forall i :: 0 <= i < |r| ==>
         && SectionBlocks(r[i].sections) != []
         && Tag(r[i]) == slots[i].key
         && r[i].title == slots[i].title
         && SectionBlocks(r[i].sections) == SortBlocks(Select(visible, slots[i].key))
         && multiset(SectionBlocks(r[i].sections)) == multiset(Select(visible, slots[i].key))
         && (forall x :: x in SectionBlocks(r[i].sections) ==> x.group == slots[i].key)
  }

  lemma RunFollowsSlots(visible: seq<FormBlock>, groups: seq<GroupDetails>, fieldHasError: Path -> bool,
                        policy: UndescribedOrder)
    ensures var slots := ResolveSlots(groups, GroupKeys(visible), visible, policy);
            FollowsSlots(BuildGroups(slots, visible, fieldHasError), slots, visible)
  {
    SlotsOfRun(visible, groups, policy);
    GroupsMatchSlots(ResolveSlots(groups, GroupKeys(visible), visible, policy), visible, fieldHasError);
  }

  lemma BucketsFromSlots(r: seq<SectionGroup>, slots: seq<Slot>, visible: seq<FormBlock>)
    requires FollowsSlots(r, slots, visible)
    requires NoDup(SlotKeys(slots))
    ensures TaggedAlike(r)
    ensures forall i :: 0 <= i < |r| ==> SectionBlocks(r[i].sections) == SortBlocks(Select(visible, Tag(r[i])))
    ensures forall i :: 0 <= i < |r| ==> multiset(SectionBlocks(r[i].sections)) == multiset(Select(visible, Tag(r[i])))
    ensures forall i, j :: 0 <= i < j < |r| ==> Tag(r[i]) != Tag(r[j])
  {
    forall i, j | 0 <= i < j < |r| ensures Tag(r[i]) != Tag(r[j]) {
      NoDupDistinct(SlotKeys(slots), i, j);
    }
  }

  /**
   * With the flag on, each group is one whole bucket: its blocks share one
   * tag, read in order they are that tag's surviving blocks laid out, and no
   * two groups share a tag.
   */
  lemma GroupsAreBuckets(blocks: seq<FormBlock>, groups: seq<GroupDetails>,
                         isHiddenAuthField: Path -> bool, fieldHasError: Path -> bool, policy: UndescribedOrder)
    ensures var r := GenerateGroupsAndSections(blocks, groups, true, isHiddenAuthField, fieldHasError, policy);
            && TaggedAlike(r)
            && (forall i :: 0 <= i < |r| ==>
                  && SectionBlocks(r[i].sections)
                     == SortBlocks(Select(FilterVisible(blocks, isHiddenAuthField), Tag(r[i])))
                  && Sorted(SectionBlocks(r[i].sections)))
            && (forall i :: 0 <= i < |r| ==>
                  multiset(SectionBlocks(r[i].sections))
                  == multiset(Select(FilterVisible(blocks, isHiddenAuthField), Tag(r[i]))))
            && (forall i, j :: 0 <= i < j < |r| ==> Tag(r[i]) != Tag(r[j]))
  {
    var visible := FilterVisible(blocks, isHiddenAuthField);
    var slots := ResolveSlots(groups, GroupKeys(visible), visible, policy);
    var r := BuildGroups(slots, visible, fieldHasError);
    assert r == GenerateGroupsAndSections(blocks, groups, true, isHiddenAuthField, fieldHasError, policy);
    SlotsOfRun(visible, groups, policy);
    RunFollowsSlots(visible, groups, fieldHasError, policy);
    BucketsFromSlots(r, slots, visible);
  }

  /** A tagged group is titled by the first metadata entry for its tag; an untagged one has no title. */
  predicate TitlesFromMetadata(r: seq<SectionGroup>, groups: seq<GroupDetails>)
    requires TaggedAlike(r)
  {
    forall i :: 0 <= i < |r| ==>
      r[i].title == if Tag(r[i]).Some? then TitleOf(groups, Tag(r[i]).value) else None
  }

  /** Titled groups come before all others, in the order of their metadata entries. */
  predicate MetadataOrder(r: seq<SectionGroup>, groups: seq<GroupDetails>)
    requires TaggedAlike(r)
  {
    forall i, j :: 0 <= i < j < |r| && r[j].title.Some? ==>
      && r[i].title.Some? && Tag(r[i]).Some? && Tag(r[j]).Some?
      && Described(groups, Tag(r[i]).value) && Described(groups, Tag(r[j]).value)
      && FirstIndex(groups, Tag(r[i]).value) < FirstIndex(groups, Tag(r[j]).value)
  }

  /** Untitled tagged groups come in the policy's order. */
  predicate UntitledByPolicy(r: seq<SectionGroup>, policy: UndescribedOrder, visible: seq<FormBlock>)
    requires TaggedAlike(r)
  {
    forall i, j :: 0 <= i < j < |r| && Tag(r[i]).Some? && Tag(r[j]).Some? &&
                   r[i].title.None? && r[j].title.None? ==>
                     PolicyAllows(policy, visible, Tag(r[i]).value, Tag(r[j]).value)
  }

  /** There is an untagged group exactly when an untagged block survives, and it is last. */
  predicate UntaggedLast(r: seq<SectionGroup>, visible: seq<FormBlock>)
    requires TaggedAlike(r)
  {
    (exists b :: b in visible && b.group.None?) <==> |r| > 0 && Tag(r[|r| - 1]).None?
  }

  lemma TitlesFromSlots(r: seq<SectionGroup>, slots: seq<Slot>, visible: seq<FormBlock>, groups: seq<GroupDetails>)
    requires FollowsSlots(r, slots, visible) && TitledByMetadata(groups, slots)
    ensures TaggedAlike(r) && TitlesFromMetadata(r, groups)
  {
  }

  lemma MetadataOrderFromSlots(r: seq<SectionGroup>, slots: seq<Slot>, visible: seq<FormBlock>,
                               groups: seq<GroupDetails>)
    requires FollowsSlots(r, slots, visible)
    requires TitledByMetadata(groups, slots) && DescribedFirst(groups, slots)
    ensures TaggedAlike(r) && MetadataOrder(r, groups)
  {
    forall i, j | 0 <= i < j < |r| && r[j].title.Some?
      ensures DescribedBefore(groups, slots[i], slots[j]) && r[i].title.Some?
    {
      assert DescribedBefore(groups, slots[i], slots[j]);
      assert slots[i].title == TitleOf(groups, slots[i].key.value);
    }
  }

  lemma PolicyFromSlots(r: seq<SectionGroup>, slots: seq<Slot>, visible: seq<FormBlock>, policy: UndescribedOrder)
    requires FollowsSlots(r, slots, visible) && UndescribedByPolicy(policy, visible, slots)
    ensures TaggedAlike(r) && UntitledByPolicy(r, policy, visible)
  {
  }

  lemma LastFromSlots(r: seq<SectionGroup>, slots: seq<Slot>, visible: seq<FormBlock>)
    requires FollowsSlots(r, slots, visible)
    requires (exists b :: b in visible && b.group.None?) <==> |slots| > 0 && slots[|slots| - 1].key == None
    ensures TaggedAlike(r) && UntaggedLast(r, visible)
  {
  }

  /**
   * With the flag on, group titles and order follow the metadata: a tagged
   * group is titled by the first metadata entry for its tag, if any; titled
   * groups come first, in metadata order; untitled tagged groups follow in
   * the policy's order; the untagged group has no title and is last.
   */
  lemma GroupsTitledAndOrdered(blocks: seq<FormBlock>, groups: seq<GroupDetails>,
                               isHiddenAuthField: Path -> bool, fieldHasError: Path -> bool, policy: UndescribedOrder)
    ensures TaggedAlike(GenerateGroupsAndSections(blocks, groups, true, isHiddenAuthField, fieldHasError, policy))
    ensures TitlesFromMetadata(GenerateGroupsAndSections(blocks, groups, true, isHiddenAuthField, fieldHasError, policy),
                               groups)
    ensures MetadataOrder(GenerateGroupsAndSections(blocks, groups, true, isHiddenAuthField, fieldHasError, policy),
                          groups)
    ensures UntitledByPolicy(GenerateGroupsAndSections(blocks, groups, true, isHiddenAuthField, fieldHasError, policy),
                             policy, FilterVisible(blocks, isHiddenAuthField))
    ensures UntaggedLast(GenerateGroupsAndSections(blocks, groups, true, isHiddenAuthField, fieldHasError, policy),
                         FilterVisible(blocks, isHiddenAuthField))
  {
    var visible := FilterVisible(blocks, isHiddenAuthField);
    var r := BuildGroups(ResolveSlots(groups, GroupKeys(visible), visible, policy), visible, fieldHasError);
    assert r == GenerateGroupsAndSections(blocks, groups, true, isHiddenAuthField, fieldHasError, policy);
    RunTitledAndOrdered(visible, groups, fieldHasError, policy);
  }

  lemma RunTitledAndOrdered(visible: seq<FormBlock>, groups: seq<GroupDetails>, fieldHasError: Path -> bool,
                            policy: UndescribedOrder)
    ensures var r := BuildGroups(ResolveSlots(groups, GroupKeys(visible), visible, policy), visible, fieldHasError);
            && TaggedAlike(r) && TitlesFromMetadata(r, groups) && MetadataOrder(r, groups)
            && UntitledByPolicy(r, policy, visible) && UntaggedLast(r, visible)
  {
    var keys := GroupKeys(visible);
    var slots := ResolveSlots(groups, keys, visible, policy);
    var r := BuildGroups(slots, visible, fieldHasError);
    RunFollowsSlots(visible, groups, fieldHasError, policy);
    GroupKeysInAppearance(visible);
    assert (exists b :: b in visible && b.group.None?) <==> None in keys;
    TitlesFromSlots(r, slots, visible, groups);
    MetadataOrderFromSlots(r, slots, visible, groups);
    PolicyFromSlots(r, slots, visible, policy);
    LastFromSlots(r, slots, visible);
  }

  /** Each section's error flag says whether some leaf field under it has an error. */
  lemma SectionErrorFlags(blocks: seq<FormBlock>, groups: seq<GroupDetails>, featureFlag: bool,
                          isHiddenAuthField: Path -> bool, fieldHasError: Path -> bool, policy: UndescribedOrder)
    ensures var r := GenerateGroupsAndSections(blocks, groups, featureFlag, isHiddenAuthField, fieldHasError, policy);
            forall i, k :: 0 <= i < |r| && 0 <= k < |r[i].sections| ==>
              (r[i].sections[k].hasError <==>
               exists p :: p in LeafPaths(r[i].sections[k].blocks) && fieldHasError(p))
  {
    var r := GenerateGroupsAndSections(blocks, groups, featureFlag, isHiddenAuthField, fieldHasError, policy);
    forall i, k | 0 <= i < |r| && 0 <= k < |r[i].sections|
      ensures r[i].sections[k].hasError <==>
              exists p :: p in LeafPaths(r[i].sections[k].blocks) && fieldHasError(p)
    {
      assert r[i].sections[k].hasError == AnyError(r[i].sections[k].blocks, fieldHasError);
    }
  }

  /**
   * With the flag off there is one untitled group holding one expanded
   * section, whatever the tags and required flags: the surviving blocks, laid out.
   */
  lemma FlagOffSingleSection(blocks: seq<FormBlock>, groups: seq<GroupDetails>,
                             isHiddenAuthField: Path -> bool, fieldHasError: Path -> bool, policy: UndescribedOrder)
    ensures var r := GenerateGroupsAndSections(blocks, groups, false, isHiddenAuthField, fieldHasError, policy);
            && |r| == 1 && r[0].title == None
            && |r[0].sections| == 1 && r[0].sections[0].displayType == Expanded
            && r[0].sections[0].blocks == SortBlocks(FilterVisible(blocks, isHiddenAuthField))
            && Sorted(r[0].sections[0].blocks)
            && multiset(r[0].sections[0].blocks) == multiset(FilterVisible(blocks, isHiddenAuthField))
  {
  }
}
