# generateGroupsAndSections, modelled in Dafny

This project models `generateGroupsAndSections` from the connector form of the
Airbyte web app. It takes the compiled form blocks of a connector
specification, the group metadata (`{id, title}` records) and the feature
flag. It returns the section groups the form is drawn from. Each group has an
optional title and a list of sections. Each section has its blocks, a display
type (`expanded`, `collapsed-inline`, `collapsed-footer` or `collapsed-group`)
and an error flag.

The pipeline is modelled as pure functions over datatypes:

- `Visibility`: drops every leaf field flagged `airbyte_hidden` or reported
  hidden by the authentication collaborator. A nested object field is never
  dropped, and its children are not looked at.
- `Grouping`: buckets the surviving top-level blocks by their own `group` tag.
  The tags of the children of a nested object field play no part.
- `BlockOrder`: lays out one bucket with a stable sort.
  - A block with an explicit `order` is placed by that number.
  - A required block without one goes before every ordered block.
  - An optional block without one goes after every ordered block.
  - Blocks without an order are ranked among themselves by `fieldKey`.
- `Sections`: cuts a laid-out bucket into three parts:
  - the optional lead-in (`collapsed-inline`);
  - the span from the first to the last required block (`expanded`);
  - the optional tail (`collapsed-footer`).

  A bucket without a required block becomes one `collapsed-group` section.
  A section's error flag says whether some leaf field under it has an error.
- `GroupResolver`: decides which buckets become groups, in what order and
  under which title.
  - Groups named by the metadata come first, in metadata order, under the
    title of the first metadata entry for their id.
  - Named groups without metadata follow.
  - The untagged bucket comes last and has no title.
- `GroupsAndSections`: puts the pieces together behind the feature flag. With
  the flag off, every surviving block goes, laid out, into one expanded
  section of one untitled group.
- `Scenarios` (with the builders and step lemmas in `ScenarioSteps`): each of
  the eight cases of `useGroupsAndSections.test.ts` is a lemma stating the
  exact output of one call.

The collaborators the function is handed are parameters of the model:

- `isHiddenAuthField` is a `Path -> bool` function.
- The form-state lookup `getFieldMeta` is reduced to `fieldHasError: Path -> bool`.

The implementation file of the hook is not part of this model; only its test
file is. The behaviour is therefore taken from the eight cases the tests
pin down. Where more than one rule fits them, the model picks one and says so:

- Flag off: the single section is laid out by the same order as a bucket. It
  is not kept in input order. At `:174-197` the input `[z_group, d, a]` must
  come out as `[a, d, z_group]`.
- Ties among blocks without an `order` are broken by `fieldKey`. This is what
  puts `d` before `z_group` in that case.
- The order of named groups without metadata is a parameter,
  `UndescribedOrder`, with two values:
  - `RequiredFirst`: groups holding a required block come first; within each
    of the two classes, groups keep the order in which their first blocks
    appear.
  - `ById`: groups are ordered by id.

  At `:120-137` group `b` is seen first, yet group `a` comes out first, so
  first-appearance order does not fit. Every scenario lemma holds under both
  values.

## Model

| member | source | states |
|---|---|---|
| GroupsAndSections.GenerateGroupsAndSections | airbyte-webapp/src/views/Connector/ConnectorForm/components/Sections/useGroupsAndSections.test.ts:65-67 | With the flag on there is exactly one group per distinct tag among the surviving blocks; with the flag off there is exactly one group. `Partition`, `ShownIffVisible`, `GroupsWellFormed`, `GroupsAreBuckets`, `GroupsTitledAndOrdered`, `SectionErrorFlags` and `FlagOffSingleSection` state the rest of its contract. |
| GroupsAndSections.Partition | airbyte-webapp/src/views/Connector/ConnectorForm/components/Sections/useGroupsAndSections.test.ts:70-228 | With the flag on or off, the blocks shown across all groups and sections are the surviving input blocks, each exactly as often as in the input: nothing duplicated, nothing lost but the hidden. |
| GroupsAndSections.ShownIffVisible | airbyte-webapp/src/views/Connector/ConnectorForm/components/Sections/useGroupsAndSections.test.ts:139-143 | A block is shown if and only if it is in the input and is not a hidden leaf. |
| GroupsAndSections.GroupsWellFormed | airbyte-webapp/src/views/Connector/ConnectorForm/components/Sections/useGroupsAndSections.test.ts:120-137 | With the flag on, no group has zero sections, no section is empty, and every group is either one `collapsed-group` section without a required block or `[collapsed-inline?, expanded, collapsed-footer?]` with the expanded span starting and ending at a required block. |
| GroupsAndSections.GroupsAreBuckets | airbyte-webapp/src/views/Connector/ConnectorForm/components/Sections/useGroupsAndSections.test.ts:145-172 | With the flag on, every block of a group carries the group's own tag; read in order, the group's blocks are exactly the surviving blocks with that tag, laid out (so sorted, a permutation of them, and stable); and no two groups share a tag. |
| GroupsAndSections.GroupsTitledAndOrdered | airbyte-webapp/src/views/Connector/ConnectorForm/components/Sections/useGroupsAndSections.test.ts:199-228 | With the flag on: a tagged group is titled by the first metadata entry for its tag, if any; titled groups come before all others in metadata order; untitled tagged groups follow in the policy's order; there is an untagged group exactly when an untagged block survives, and it is last and untitled. |
| GroupsAndSections.SectionErrorFlags | airbyte-webapp/src/views/Connector/ConnectorForm/components/Sections/useGroupsAndSections.test.ts:54-63 | Every section's error flag is true if and only if the error lookup reports an error for some leaf path under its blocks, nested object fields opened up. |
| GroupsAndSections.FlagOffSingleSection | airbyte-webapp/src/views/Connector/ConnectorForm/components/Sections/useGroupsAndSections.test.ts:174-197 | With the flag off there is exactly one untitled group holding exactly one expanded section, whose blocks are the surviving blocks laid out: sorted, and a permutation of them. |
| BlockOrder.SortKey | airbyte-webapp/src/views/Connector/ConnectorForm/components/Sections/useGroupsAndSections.test.ts:70-91 | The sort key (`Tier` and `Precedes`) in the form's terms: a required block without an `order` goes before every block of another kind, blocks with an `order` go by that number, an optional block without an `order` goes after every block of another kind, and two blocks of one unordered kind go by `fieldKey`. |
| BlockOrder.SortBlocks | airbyte-webapp/src/views/Connector/ConnectorForm/components/Sections/useGroupsAndSections.test.ts:76-91 | The layout of a bucket is a permutation of it and is sorted by the block order. |
| BlockOrder.SortIsStable | airbyte-webapp/src/views/Connector/ConnectorForm/components/Sections/useGroupsAndSections.test.ts:70-74 | Blocks of equal rank keep their input order through the layout. |
| BlockOrder.SameRankIsTie | airbyte-webapp/src/views/Connector/ConnectorForm/components/Sections/useGroupsAndSections.test.ts:70-74 | Two blocks have the same rank if and only if each may precede the other. |
| BlockOrder.SortIdempotent | airbyte-webapp/src/views/Connector/ConnectorForm/components/Sections/useGroupsAndSections.test.ts:120-137 | Laying out an already laid-out bucket changes nothing. |
| BlockOrder.OrderIsAuthoritative | airbyte-webapp/src/views/Connector/ConnectorForm/components/Sections/useGroupsAndSections.test.ts:76-91 | Where every block carries an explicit order, the layout is ascending by that order. |
| BlockOrder.RequiredBeforeOptional | airbyte-webapp/src/views/Connector/ConnectorForm/components/Sections/useGroupsAndSections.test.ts:70-74 | Where no block carries an explicit order, every required block is placed before every optional one. |
| Visibility.WhatSurvives | airbyte-webapp/src/views/Connector/ConnectorForm/components/Sections/useGroupsAndSections.test.ts:93-118 | A leaf field survives the filter exactly when it is neither flagged `airbyte_hidden` nor a hidden auth field (the predicate `Visible`); a nested object field always survives, its children as they were. |
| Visibility.FilterVisible | airbyte-webapp/src/views/Connector/ConnectorForm/components/Sections/useGroupsAndSections.test.ts:139-143 | A block survives the filter if and only if it is in the input and visible, and each survivor occurs as often as in the input. |
| Visibility.FilterAppend | airbyte-webapp/src/views/Connector/ConnectorForm/components/Sections/useGroupsAndSections.test.ts:139-143 | The filter keeps input order: filtering a concatenation is concatenating the filtered parts. |
| Visibility.FilterKeepsVisible | airbyte-webapp/src/views/Connector/ConnectorForm/components/Sections/useGroupsAndSections.test.ts:62-66 | A list with nothing hidden passes through the filter unchanged. |
| Sections.Zones | airbyte-webapp/src/views/Connector/ConnectorForm/components/Sections/useGroupsAndSections.test.ts:76-91 | Cutting a laid-out bucket keeps its blocks in order, creates no empty section, gives every non-empty bucket one of the two section shapes, and sets every error flag from the leaves under the section. |
| Sections.SplitBucket | airbyte-webapp/src/views/Connector/ConnectorForm/components/Sections/useGroupsAndSections.test.ts:120-137 | The sections of a bucket, read in order, hold exactly the bucket laid out (so sorted and a permutation of it); none is empty, a non-empty bucket is well shaped, and every error flag matches the leaves under the section. |
| Sections.AllOptionalCollapses | airbyte-webapp/src/views/Connector/ConnectorForm/components/Sections/useGroupsAndSections.test.ts:133-135 | A non-empty bucket without a required block becomes one `collapsed-group` section holding the bucket laid out. |
| Sections.NoOrderNoInline | airbyte-webapp/src/views/Connector/ConnectorForm/components/Sections/useGroupsAndSections.test.ts:70-74 | Without explicit orders, a bucket with a required block starts with an expanded section of required blocks only, and every later section is a footer. |
| Sections.AnyError | airbyte-webapp/src/views/Connector/ConnectorForm/components/Sections/useGroupsAndSections.test.ts:54-63 | A run of blocks has an error if and only if the error lookup reports one for some leaf path under it, nested object fields opened up. |
| Grouping.GroupKeys | airbyte-webapp/src/views/Connector/ConnectorForm/components/Sections/useGroupsAndSections.test.ts:145-172 | The bucket keys hold no key twice, and a key is among them if and only if some top-level block carries it as its own tag. |
| Grouping.GroupKeysInAppearance | airbyte-webapp/src/views/Connector/ConnectorForm/components/Sections/useGroupsAndSections.test.ts:145-172 | The bucket keys come in the order in which their first blocks appear in the input. |
| Grouping.Select | airbyte-webapp/src/views/Connector/ConnectorForm/components/Sections/useGroupsAndSections.test.ts:120-137 | The bucket of a key holds exactly the blocks tagged with it, each as often as in the input. |
| Grouping.BucketsPartition | airbyte-webapp/src/views/Connector/ConnectorForm/components/Sections/useGroupsAndSections.test.ts:120-137 | The buckets of a duplicate-free list of keys that covers every tag hold, together, each block exactly as often as the input. |
| Grouping.BucketNonEmpty | airbyte-webapp/src/views/Connector/ConnectorForm/components/Sections/useGroupsAndSections.test.ts:139-143 | Every bucket key names a non-empty bucket, so a group whose fields are all hidden has no key and no group. |
| GroupResolver.FirstIndex | airbyte-webapp/src/views/Connector/ConnectorForm/components/Sections/useGroupsAndSections.test.ts:209-212 | The position returned is an entry for the id, and no earlier entry has that id. |
| GroupResolver.TitleOf | airbyte-webapp/src/views/Connector/ConnectorForm/components/Sections/useGroupsAndSections.test.ts:209-218 | A group has a title if and only if the metadata describes it, and the title is that of its first metadata entry. |
| GroupResolver.DescribedFrom | airbyte-webapp/src/views/Connector/ConnectorForm/components/Sections/useGroupsAndSections.test.ts:199-225 | Every described slot names a bucket, is described, carries its metadata title, and the slots are strictly increasing in first metadata position. |
| GroupResolver.DescribedFromComplete | airbyte-webapp/src/views/Connector/ConnectorForm/components/Sections/useGroupsAndSections.test.ts:199-225 | Every described group that has a bucket gets a slot under its metadata title. |
| GroupResolver.UndescribedNames | airbyte-webapp/src/views/Connector/ConnectorForm/components/Sections/useGroupsAndSections.test.ts:120-137 | A name is listed if and only if it is a bucket key without metadata, and it is listed no more often than it is a key. |
| GroupResolver.SortIds | airbyte-webapp/src/views/Connector/ConnectorForm/components/Sections/useGroupsAndSections.test.ts:120-137 | Sorting group ids gives a permutation of them in ascending order. |
| GroupResolver.OrderUndescribed | airbyte-webapp/src/views/Connector/ConnectorForm/components/Sections/useGroupsAndSections.test.ts:120-137 | Either policy only reorders the undescribed names: the result is a permutation of them. |
| GroupResolver.UndescribedInAppearance | airbyte-webapp/src/views/Connector/ConnectorForm/components/Sections/useGroupsAndSections.test.ts:120-137 | Listing the undescribed names keeps the order of the bucket keys, so first-appearance order carries over. |
| GroupResolver.KeepInAppearance | airbyte-webapp/src/views/Connector/ConnectorForm/components/Sections/useGroupsAndSections.test.ts:120-137 | Keeping the names of one class (with or without a required block) keeps their first-appearance order. |
| GroupResolver.OrderUndescribedOrdered | airbyte-webapp/src/views/Connector/ConnectorForm/components/Sections/useGroupsAndSections.test.ts:120-137 | Given the names in first-appearance order, they come out in the order the policy promises: by id; or groups with a required block before the others, each class in first-appearance order. |
| GroupResolver.ResolveSlots | airbyte-webapp/src/views/Connector/ConnectorForm/components/Sections/useGroupsAndSections.test.ts:199-228 | For duplicate-free keys the slots name every bucket key exactly once and nothing else; slot titles come from the metadata; titled slots come first in metadata order; for keys in first-appearance order, untitled named slots follow in the policy's order; the untagged slot exists exactly when there is an untagged bucket, and it is last. |
| Scenarios.OptionalFieldsGoToTheBack | airbyte-webapp/src/views/Connector/ConnectorForm/components/Sections/useGroupsAndSections.test.ts:70-74 | `[a, b, c(required)]` gives one untitled group: `[c]` expanded, then `[a, b]` as the footer. |
| Scenarios.OrderCollapse | airbyte-webapp/src/views/Connector/ConnectorForm/components/Sections/useGroupsAndSections.test.ts:76-91 | Orders 0-3 with `c` required give `[a, b]` inline, `[c]` expanded, `[d]` footer. |
| Scenarios.NestedObjectNotUnwrapped | airbyte-webapp/src/views/Connector/ConnectorForm/components/Sections/useGroupsAndSections.test.ts:93-118 | A required nested object at order 1 is one expanded section between `[a]` inline and `[d]` footer, its children untouched. |
| Scenarios.SplitGroups | airbyte-webapp/src/views/Connector/ConnectorForm/components/Sections/useGroupsAndSections.test.ts:120-137 | Groups `a` then `b`: `[c]` expanded and `[d]` footer, then `[b, a]` as one collapsed group, under either policy. |
| Scenarios.HiddenGroupDropped | airbyte-webapp/src/views/Connector/ConnectorForm/components/Sections/useGroupsAndSections.test.ts:139-143 | A group whose only field is hidden does not appear; the other group is untitled. |
| Scenarios.NestedTagsIgnored | airbyte-webapp/src/views/Connector/ConnectorForm/components/Sections/useGroupsAndSections.test.ts:145-172 | The nested object is bucketed by its own tag `a`; `[a, z_group]` share one expanded section; group `b` holds only `d`, collapsed. |
| Scenarios.FlagOffOneSection | airbyte-webapp/src/views/Connector/ConnectorForm/components/Sections/useGroupsAndSections.test.ts:174-197 | With the flag off, `[z_group, d, a]` gives one untitled group with one expanded section `[a, d, z_group]`. |
| Scenarios.TitledGroups | airbyte-webapp/src/views/Connector/ConnectorForm/components/Sections/useGroupsAndSections.test.ts:199-228 | With metadata `[b: Group B, a: Group A]`, groups come out titled in metadata order, and the untagged `[e]` comes last, untitled and collapsed; no section has an error. |

## Left out

- The hook's implementation file is not part of this model. Every rule is taken from the eight test cases and the types they build.
- The form-state store (`getFieldMeta` and its `FieldMetaProps`) is reduced to a `Path -> bool` error function. Touched state and error messages play no part.
- The authentication collaborator is an abstract `isHiddenAuthField: Path -> bool`. The `isCreating` argument (passed at `:66`) is folded into that predicate.
- The single-block form of the input (`FormBlock | FormBlock[]`) is not modelled; the input is always a sequence.
- `order` is an `int`, not a JavaScript number. Fractional and non-finite orders are not modelled.
- StringOrder.StrLe: compares strings character by character, where a character is a Unicode scalar value; JavaScript's `<` on strings compares UTF-16 code units, so the two orders differ for characters outside the Basic Multilingual Plane.
- Leaf payload fields (`type` and the rest of the JSON-schema compilation) and the rendering of display types are not modelled.
- GroupsAndSections.GroupsTitledAndOrdered: the order of named groups without metadata is stated for a policy parameter, not for the one rule the implementation uses, because the tests admit both rules.
