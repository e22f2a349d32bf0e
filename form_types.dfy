/**
 * The shapes exchanged by the section builder of the connector form: the
 * compiled form blocks it takes, the group metadata that names and orders
 * groups, and the sections and section groups it returns.
 */
module FormTypes {
  import opened Wrappers

  /** A fully qualified field path, the key of the form-state store. */
  type Path = string

  /**
   * A block of the compiled form. A `FormItem` is a leaf field; a `FormGroup`
   * is a nested object field whose `properties` are carried along untouched.
   * Undefined `order`/`group` are `None`; an undefined `airbyte_hidden` is false.
   */
  datatype FormBlock =
    | FormItem(fieldKey: string, path: Path, isRequired: bool, order: Option<int>,
               group: Option<string>, airbyteHidden: bool)
    | FormGroup(fieldKey: string, path: Path, isRequired: bool, order: Option<int>,
                group: Option<string>, properties: seq<FormBlock>)

  /** Metadata naming one group and fixing its place in the output. */
  datatype GroupDetails = GroupDetails(id: string, title: string)

  datatype DisplayType = Expanded | CollapsedInline | CollapsedFooter | CollapsedGroup

  datatype Section = Section(blocks: seq<FormBlock>, displayType: DisplayType, hasError: bool)

  datatype SectionGroup = SectionGroup(title: Option<string>, sections: seq<Section>)

  /** The blocks of a run of sections, in display order. */
  function SectionBlocks(ss: seq<Section>): seq<FormBlock>
  {
    if ss == [] then [] else ss[0].blocks + SectionBlocks(ss[1..])
  }

  /** The blocks of a run of section groups, in display order. */
  function GroupBlocks(gs: seq<SectionGroup>): seq<FormBlock>
  {
    if gs == [] then [] else SectionBlocks(gs[0].sections) + GroupBlocks(gs[1..])
  }

  lemma {:induction false} SectionBlocksAppend(a: seq<Section>, b: seq<Section>)
    ensures SectionBlocks(a + b) == SectionBlocks(a) + SectionBlocks(b)
  {
    if a != [] {
      assert (a + b)[1..] == a[1..] + b;
      SectionBlocksAppend(a[1..], b);
    } else {
      assert a + b == b;
    }
  }

  /** A block occurs in a run of sections exactly when some section holds it. */
  lemma {:induction false} InSectionBlocks(ss: seq<Section>, x: FormBlock)
    ensures x in SectionBlocks(ss) <==> exists i :: 0 <= i < |ss| && x in ss[i].blocks
  {
    if ss != [] {
      InSectionBlocks(ss[1..], x);
      if x in SectionBlocks(ss[1..]) {
        var i :| 0 <= i < |ss[1..]| && x in ss[1..][i].blocks;
        assert x in ss[i + 1].blocks;
      }
      if exists i :: 0 <= i < |ss| && x in ss[i].blocks {
        var i :| 0 <= i < |ss| && x in ss[i].blocks;
        if i > 0 {
          assert x in ss[1..][i - 1].blocks;
        }
      }
    }
  }

  /** Past its head, a list built by prepending is the original list. */
  lemma ConsTail<T>(h: T, t: seq<T>)
    ensures ([h] + t)[0] == h
    ensures forall i :: 0 < i <= |t| ==> ([h] + t)[i] == t[i - 1]
  {
  }

  /** A non-empty list is its head followed by its tail. */
  lemma HeadTail<T>(t: seq<T>)
    requires t != []
    ensures [t[0]] + t[1..] == t
  {
  }
}
