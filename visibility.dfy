/**
 * The visibility filter: drops every leaf field flagged `airbyte_hidden` or
 * reported hidden by the authentication collaborator. Nested object fields
 * are never dropped here and their children are not looked at.
 */
module Visibility {
  import opened FormTypes

  /** A block survives unless it is a leaf that is hidden or a hidden auth field. */
  predicate Visible(b: FormBlock, isHiddenAuthField: Path -> bool)
  {
    match b
    case FormItem(_, path, _, _, _, hidden) => !hidden && !isHiddenAuthField(path)
    case FormGroup(_, _, _, _, _, _) => true
  }

  /**
   * What the filter drops, in the form's terms: a leaf field survives exactly
   * when it is neither flagged `airbyte_hidden` nor a hidden auth field; a
   * nested object field always survives, with its children as they were.
   */
  lemma WhatSurvives(bs: seq<FormBlock>, isHiddenAuthField: Path -> bool)
    ensures forall x :: x in bs && x.FormGroup? ==> x in FilterVisible(bs, isHiddenAuthField)
    ensures forall x :: x in bs && x.FormItem? ==>
              (x in FilterVisible(bs, isHiddenAuthField) <==> !x.airbyteHidden && !isHiddenAuthField(x.path))
  {
  }

  function FilterVisible(bs: seq<FormBlock>, isHiddenAuthField: Path -> bool): (r: seq<FormBlock>)
    ensures forall x {:trigger x in r} {:trigger x in bs} :: x in r <==> x in bs && Visible(x, isHiddenAuthField)
    ensures forall x {:trigger multiset(r)[x]} {:trigger multiset(bs)[x]} ::
              multiset(r)[x] == if Visible(x, isHiddenAuthField) then multiset(bs)[x] else 0
  {
    if bs == [] then []
    else
      assert bs == [bs[0]] + bs[1..];
      (if Visible(bs[0], isHiddenAuthField) then [bs[0]] else []) + FilterVisible(bs[1..], isHiddenAuthField)
  }

  /** The filter keeps input order: it distributes over concatenation. */
  lemma {:induction false} FilterAppend(a: seq<FormBlock>, b: seq<FormBlock>, isHiddenAuthField: Path -> bool)
    ensures FilterVisible(a + b, isHiddenAuthField)
            == FilterVisible(a, isHiddenAuthField) + FilterVisible(b, isHiddenAuthField)
  {
    if a == [] {
      assert a + b == b;
    } else {
      var head := if Visible(a[0], isHiddenAuthField) then [a[0]] else [];
      assert (a + b)[0] == a[0] && (a + b)[1..] == a[1..] + b;
      FilterAppend(a[1..], b, isHiddenAuthField);
      calc {
        FilterVisible(a + b, isHiddenAuthField);
        head + FilterVisible(a[1..] + b, isHiddenAuthField);
        head + (FilterVisible(a[1..], isHiddenAuthField) + FilterVisible(b, isHiddenAuthField));
        (head + FilterVisible(a[1..], isHiddenAuthField)) + FilterVisible(b, isHiddenAuthField);
        FilterVisible(a, isHiddenAuthField) + FilterVisible(b, isHiddenAuthField);
      }
    }
  }

  /** A list with nothing to hide passes through unchanged. */
  lemma {:induction false} FilterKeepsVisible(bs: seq<FormBlock>, isHiddenAuthField: Path -> bool)
    requires forall x :: x in bs ==> Visible(x, isHiddenAuthField)
    ensures FilterVisible(bs, isHiddenAuthField) == bs
  {
    if bs != [] {
      FilterKeepsVisible(bs[1..], isHiddenAuthField);
      assert bs == [bs[0]] + bs[1..];
    }
  }
}
