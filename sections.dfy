/**
 * The section splitter: lays out one bucket by `BlockOrder` and cuts the
 * result into an optional lead-in (`CollapsedInline`), the span from the
 * first to the last required block (`Expanded`) and an optional tail
 * (`CollapsedFooter`); a bucket without any required block becomes a single
 * `CollapsedGroup` section. Each section carries the error flag of the
 * leaf fields under it.
 */
module Sections {
  import opened FormTypes
  import opened BlockOrder

  /** The paths of the leaf fields under `bs`, nested object fields opened up. */
  function LeafPaths(bs: seq<FormBlock>): seq<Path>
    decreases bs
  {
    if bs == [] then []
    else
      (match bs[0]
       case FormItem(_, path, _, _, _, _) => [path]
       case FormGroup(_, _, _, _, _, properties) => LeafPaths(properties))
      + LeafPaths(bs[1..])
  }

  /**
   * Whether the form-state store reports an error for some leaf under `bs`:
   * exactly when some leaf path, nested object fields opened up, has one.
   */
  function AnyError(bs: seq<FormBlock>, fieldHasError: Path -> bool): (r: bool)
    ensures r <==> exists p :: p in LeafPaths(bs) && fieldHasError(p)
    decreases bs
  {
    if bs == [] then false
    else
      (match bs[0]
       case FormItem(_, path, _, _, _, _) => fieldHasError(path)
       case FormGroup(_, _, _, _, _, properties) => AnyError(properties, fieldHasError))
      || AnyError(bs[1..], fieldHasError)
  }

  /** A store without errors leaves every flag down. */
  lemma {:induction false} NoErrorNoFlag(bs: seq<FormBlock>, fieldHasError: Path -> bool)
    requires forall p :: !fieldHasError(p)
    ensures !AnyError(bs, fieldHasError)
    decreases bs
  {
    if bs != [] {
      NoErrorNoFlag(bs[1..], fieldHasError);
      match bs[0]
      case FormItem(_, _, _, _, _, _) =>
      case FormGroup(_, _, _, _, _, properties) =>
        NoErrorNoFlag(properties, fieldHasError);
    }
  }

  predicate HasRequired(bs: seq<FormBlock>)
  {
    exists i :: 0 <= i < |bs| && bs[i].isRequired
  }

  function FirstRequired(bs: seq<FormBlock>): (k: nat)
    requires HasRequired(bs)
    ensures k < |bs| && bs[k].isRequired
    ensures forall i :: 0 <= i < k ==> !bs[i].isRequired
  {
    if bs[0].isRequired then 0
    else
      assert HasRequired(bs[1..]) by {
        var i :| 0 <= i < |bs| && bs[i].isRequired;
        assert bs[1..][i - 1].isRequired;
      }
      1 + FirstRequired(bs[1..])
  }

  function LastRequired(bs: seq<FormBlock>): (k: nat)
    requires HasRequired(bs)
    ensures k < |bs| && bs[k].isRequired
    ensures forall i :: k < i < |bs| ==> !bs[i].isRequired
  {
    if bs[|bs| - 1].isRequired then |bs| - 1
    else
      assert HasRequired(bs[..|bs| - 1]) by {
        var i :| 0 <= i < |bs| && bs[i].isRequired;
        assert bs[..|bs| - 1][i].isRequired;
      }
      LastRequired(bs[..|bs| - 1])
  }

  /** A single collapsible section standing for a bucket without required blocks. */
  predicate GroupShaped(ss: seq<Section>)
  {
    |ss| == 1 && ss[0].displayType == CollapsedGroup && !HasRequired(ss[0].blocks)
  }

  /**
   * [CollapsedInline?, Expanded, CollapsedFooter?]: the expanded section starts
   * and ends with a required block, the collapsed ones hold none.
   */
  predicate ZoneShaped(ss: seq<Section>)
  {
    |ss| >= 1 &&
    var c := if ss[0].displayType == CollapsedInline then 1 else 0;
    && c < |ss| <= c + 2
    && ss[c].displayType == Expanded
    && |ss[c].blocks| > 0
    && ss[c].blocks[0].isRequired
    && ss[c].blocks[|ss[c].blocks| - 1].isRequired
    && (c == 1 ==> !HasRequired(ss[0].blocks))
    && (c + 1 < |ss| ==> ss[c + 1].displayType == CollapsedFooter && !HasRequired(ss[c + 1].blocks))
  }

  predicate WellShaped(ss: seq<Section>)
  {
    GroupShaped(ss) || ZoneShaped(ss)
  }

  /** Every section's error flag is that of the leaf fields under it. */
  predicate FlagsMatch(ss: seq<Section>, fieldHasError: Path -> bool)
  {
    forall i :: 0 <= i < |ss| ==> ss[i].hasError == AnyError(ss[i].blocks, fieldHasError)
  }

  predicate NoEmptySection(ss: seq<Section>)
  {
    forall i :: 0 <= i < |ss| ==> |ss[i].blocks| > 0
  }

  /** One section holding `bs`, or none when `bs` is empty. */
  function SectionOf(bs: seq<FormBlock>, displayType: DisplayType, fieldHasError: Path -> bool): (r: seq<Section>)
    ensures SectionBlocks(r) == bs
    ensures NoEmptySection(r)
    ensures |r| == if bs == [] then 0 else 1
    ensures bs != [] ==> r[0].blocks == bs && r[0].displayType == displayType
    ensures FlagsMatch(r, fieldHasError)
  {
    if bs == [] then []
    else
      var r := [Section(bs, displayType, AnyError(bs, fieldHasError))];
      assert SectionBlocks(r[1..]) == [];
      r
  }

  /** The pieces around the first and last required block. */
  lemma ZonePieces(s: seq<FormBlock>, f: nat, l: nat)
    requires f <= l < |s| && s[f].isRequired && s[l].isRequired
    requires forall i :: 0 <= i < f ==> !s[i].isRequired
    requires forall i :: l < i < |s| ==> !s[i].isRequired
    ensures !HasRequired(s[..f]) && !HasRequired(s[l + 1..])
    ensures s[f..l + 1][0].isRequired && s[f..l + 1][l - f].isRequired
  {
  }

  lemma SliceThree(s: seq<FormBlock>, i: nat, j: nat)
    requires i <= j <= |s|
    ensures s[..i] + s[i..j] + s[j..] == s
  {
  }

  lemma ConcatZones(lead: seq<Section>, core: seq<Section>, tail: seq<Section>)
    ensures SectionBlocks(lead + core + tail) == SectionBlocks(lead) + SectionBlocks(core) + SectionBlocks(tail)
  {
    SectionBlocksAppend(lead, core);
    SectionBlocksAppend(lead + core, tail);
  }

  /** The three zones of a bucket with a required block, assembled, are well shaped. */
  lemma ThreeZonesShaped(lead: seq<Section>, core: seq<Section>, tail: seq<Section>, fieldHasError: Path -> bool)
    requires |lead| <= 1 && |core| == 1 && |tail| <= 1
    requires NoEmptySection(lead) && NoEmptySection(core) && NoEmptySection(tail)
    requires |lead| == 1 ==> lead[0].displayType == CollapsedInline && !HasRequired(lead[0].blocks)
    requires core[0].displayType == Expanded
    requires core[0].blocks[0].isRequired && core[0].blocks[|core[0].blocks| - 1].isRequired
    requires |tail| == 1 ==> tail[0].displayType == CollapsedFooter && !HasRequired(tail[0].blocks)
    requires FlagsMatch(lead, fieldHasError) && FlagsMatch(core, fieldHasError) && FlagsMatch(tail, fieldHasError)
    ensures NoEmptySection(lead + core + tail)
    ensures ZoneShaped(lead + core + tail)
    ensures FlagsMatch(lead + core + tail, fieldHasError)
  {
    var ss := lead + core + tail;
    assert ss[|lead|] == core[0];
    if |tail| == 1 {
      assert ss[|lead| + 1] == tail[0];
    }
  }

  /**
   * The sections for the cut points `f` and `l`, the first and the last
   * required block of a laid-out bucket.
   */
  function Cut(sorted: seq<FormBlock>, f: nat, l: nat, fieldHasError: Path -> bool): seq<Section>
    requires f <= l < |sorted|
  {
    SectionOf(sorted[..f], CollapsedInline, fieldHasError)
    + SectionOf(sorted[f..l + 1], Expanded, fieldHasError)
    + SectionOf(sorted[l + 1..], CollapsedFooter, fieldHasError)
  }

  /** Sections built from a lead-in, a core and a tail are zoned. */
  lemma AssembleZones(lead: seq<FormBlock>, core: seq<FormBlock>, tail: seq<FormBlock>, fieldHasError: Path -> bool)
    requires !HasRequired(lead) && !HasRequired(tail)
    requires core != [] && core[0].isRequired && core[|core| - 1].isRequired
    ensures var r := SectionOf(lead, CollapsedInline, fieldHasError) + SectionOf(core, Expanded, fieldHasError)
                     + SectionOf(tail, CollapsedFooter, fieldHasError);
            SectionBlocks(r) == lead + core + tail && NoEmptySection(r) && ZoneShaped(r) && FlagsMatch(r, fieldHasError)
  {
    var a := SectionOf(lead, CollapsedInline, fieldHasError);
    var b := SectionOf(core, Expanded, fieldHasError);
    var c := SectionOf(tail, CollapsedFooter, fieldHasError);
    ConcatZones(a, b, c);
    ThreeZonesShaped(a, b, c, fieldHasError);
  }

  lemma CutIsZoned(sorted: seq<FormBlock>, f: nat, l: nat, fieldHasError: Path -> bool)
    requires f <= l < |sorted| && sorted[f].isRequired && sorted[l].isRequired
    requires forall i :: 0 <= i < f ==> !sorted[i].isRequired
    requires forall i :: l < i < |sorted| ==> !sorted[i].isRequired
    ensures SectionBlocks(Cut(sorted, f, l, fieldHasError)) == sorted
    ensures NoEmptySection(Cut(sorted, f, l, fieldHasError))
    ensures ZoneShaped(Cut(sorted, f, l, fieldHasError))
    ensures FlagsMatch(Cut(sorted, f, l, fieldHasError), fieldHasError)
  {
    SliceThree(sorted, f, l + 1);
    ZonePieces(sorted, f, l);
    AssembleZones(sorted[..f], sorted[f..l + 1], sorted[l + 1..], fieldHasError);
  }

  /** Cuts a laid-out bucket into its sections. */
  function Zones(sorted: seq<FormBlock>, fieldHasError: Path -> bool): (r: seq<Section>)
    ensures SectionBlocks(r) == sorted
    ensures NoEmptySection(r)
    ensures sorted != [] ==> WellShaped(r)
    ensures FlagsMatch(r, fieldHasError)
  {
    if sorted == [] then []
    else if !HasRequired(sorted) then SectionOf(sorted, CollapsedGroup, fieldHasError)
    else
      CutIsZoned(sorted, FirstRequired(sorted), LastRequired(sorted), fieldHasError);
      Cut(sorted, FirstRequired(sorted), LastRequired(sorted), fieldHasError)
  }

  /** The sections of one bucket: its blocks laid out, then cut into zones. */
  function SplitBucket(bucket: seq<FormBlock>, fieldHasError: Path -> bool): (r: seq<Section>)
    ensures SectionBlocks(r) == SortBlocks(bucket)
    ensures Sorted(SectionBlocks(r))
    ensures multiset(SectionBlocks(r)) == multiset(bucket)
    ensures NoEmptySection(r)
    ensures bucket != [] ==> WellShaped(r)
    ensures FlagsMatch(r, fieldHasError)
  {
    Zones(SortBlocks(bucket), fieldHasError)
  }

  lemma HasRequiredPermutation(a: seq<FormBlock>, b: seq<FormBlock>)
    requires multiset(a) == multiset(b)
    ensures HasRequired(a) <==> HasRequired(b)
  {
    if HasRequired(a) {
      var i :| 0 <= i < |a| && a[i].isRequired;
      assert a[i] in multiset(b);
    }
    if HasRequired(b) {
      var i :| 0 <= i < |b| && b[i].isRequired;
      assert b[i] in multiset(a);
    }
  }

  /** A non-empty bucket without required blocks collapses into one laid-out section. */
  lemma AllOptionalCollapses(bucket: seq<FormBlock>, fieldHasError: Path -> bool)
    requires bucket != [] && !HasRequired(bucket)
    ensures var r := SplitBucket(bucket, fieldHasError);
            |r| == 1 && r[0].displayType == CollapsedGroup && r[0].blocks == SortBlocks(bucket)
  {
    HasRequiredPermutation(bucket, SortBlocks(bucket));
  }

  /**
   * Without explicit orders, the required blocks form the expanded section on
   * their own, first, and the optional ones all follow in the footer.
   */
  lemma NoOrderNoInline(bucket: seq<FormBlock>, fieldHasError: Path -> bool)
    requires HasRequired(bucket)
    requires forall b :: b in bucket ==> b.order.None?
    ensures var r := SplitBucket(bucket, fieldHasError);
            && r[0].displayType == Expanded
            && (forall b :: b in r[0].blocks ==> b.isRequired)
            && (forall i :: 1 <= i < |r| ==> r[i].displayType == CollapsedFooter)
  {
    var s := SortBlocks(bucket);
    HasRequiredPermutation(bucket, s);
    RequiredBeforeOptional(bucket);
    var f := FirstRequired(s);
    var l := LastRequired(s);
    forall j | 0 <= j <= l ensures s[j].isRequired {
    }
  }
}
