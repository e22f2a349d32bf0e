/**
 * The order in which the blocks of one bucket are laid out. A block with an
 * explicit `order` is placed by that number; a required block without one
 * goes before every ordered block, an optional block without one after every
 * ordered block, and blocks without an order are ranked among themselves by
 * `fieldKey`. The sort is stable: blocks of equal rank keep their input order.
 */
module BlockOrder {
  import opened Wrappers
  import opened FormTypes
  import opened StringOrder

  /** 0 stands for the -infinity sentinel, 1 for an explicit order, 2 for +infinity. */
  function Tier(b: FormBlock): nat
  {
    if b.order.Some? then 1 else if b.isRequired then 0 else 2
  }

  /** `a` may be placed before `b`: a total preorder on blocks. */
  predicate Precedes(a: FormBlock, b: FormBlock)
  {
    Tier(a) < Tier(b)
    || (Tier(a) == Tier(b) &&
        if Tier(a) == 1 then a.order.value <= b.order.value else StrLe(a.fieldKey, b.fieldKey))
  }

  /**
   * The sort key in the form's terms: a required block without an `order`
   * goes before every block of another kind; blocks with an `order` go by
   * that number; an optional block without an `order` goes after every block
   * of another kind; two blocks of one unordered kind go by `fieldKey`.
   */
  lemma SortKey(a: FormBlock, b: FormBlock)
    ensures a.order.None? && a.isRequired && !(b.order.None? && b.isRequired) ==>
              Precedes(a, b) && !Precedes(b, a)
    ensures a.order.Some? && b.order.Some? ==> (Precedes(a, b) <==> a.order.value <= b.order.value)
    ensures a.order.None? && !a.isRequired && !(b.order.None? && !b.isRequired) ==>
              Precedes(b, a) && !Precedes(a, b)
    ensures a.order.None? && b.order.None? && a.isRequired == b.isRequired ==>
              (Precedes(a, b) <==> StrLe(a.fieldKey, b.fieldKey))
  {
  }

  /** What `Precedes` looks at: the tier, then the order number or the field key. */
  datatype Rank = Rank(tier: nat, order: int, key: string)

  function RankOf(b: FormBlock): Rank
  {
    if Tier(b) == 1 then Rank(1, b.order.value, []) else Rank(Tier(b), 0, b.fieldKey)
  }

  /** `a` and `b` have the same rank, so a stable sort keeps them in input order. */
  predicate SameRank(a: FormBlock, b: FormBlock)
  {
    RankOf(a) == RankOf(b)
  }

  /** Same rank means tied both ways under `Precedes`. */
  lemma SameRankIsTie(a: FormBlock, b: FormBlock)
    ensures SameRank(a, b) <==> Precedes(a, b) && Precedes(b, a)
  {
    if Tier(a) == Tier(b) != 1 {
      if StrLe(a.fieldKey, b.fieldKey) && StrLe(b.fieldKey, a.fieldKey) {
        StrLeAntisym(a.fieldKey, b.fieldKey);
      }
      if a.fieldKey == b.fieldKey {
        StrLeRefl(a.fieldKey);
      }
    }
  }

  lemma PrecedesTotal(a: FormBlock, b: FormBlock)
    ensures Precedes(a, b) || Precedes(b, a)
  {
    StrLeTotal(a.fieldKey, b.fieldKey);
  }

  lemma PrecedesTrans(a: FormBlock, b: FormBlock, c: FormBlock)
    requires Precedes(a, b) && Precedes(b, c)
    ensures Precedes(a, c)
  {
    if Tier(a) == Tier(b) == Tier(c) != 1 {
      StrLeTrans(a.fieldKey, b.fieldKey, c.fieldKey);
    }
  }

  predicate Sorted(s: seq<FormBlock>)
  {
    forall i, j :: 0 <= i < j < |s| ==> Precedes(s[i], s[j])
  }

  /** Sortedness is checked pairwise along the list: a block that may precede the head extends it. */
  lemma SortedCons(x: FormBlock, s: seq<FormBlock>)
    requires Sorted(s)
    requires s != [] ==> Precedes(x, s[0])
    ensures Sorted([x] + s)
  {
    var r := [x] + s;
    forall i, j | 0 <= i < j < |r| ensures Precedes(r[i], r[j]) {
      if i == 0 && j > 1 {
        PrecedesTrans(x, s[0], s[j - 1]);
      }
    }
  }

  /** Puts `x` in front of the first block of `s` it may precede. */
  function Insert(x: FormBlock, s: seq<FormBlock>): (r: seq<FormBlock>)
    requires Sorted(s)
    ensures multiset(r) == multiset(s) + multiset{x}
    ensures Sorted(r)
  {
    if s == [] then [x]
    else if Precedes(x, s[0]) then
      SortedCons(x, s);
      [x] + s
    else
      var t := Insert(x, s[1..]);
      assert s == [s[0]] + s[1..];
      PrecedesTotal(x, s[0]);
      HeadPrecedesTail(s);
      PrecedesInserted(s[0], x, s[1..], t);
      SortedCons(s[0], t);
      [s[0]] + t
  }

  /** The head of a sorted list may precede every block after it. */
  lemma HeadPrecedesTail(s: seq<FormBlock>)
    requires Sorted(s) && s != []
    ensures forall j :: 0 <= j < |s[1..]| ==> Precedes(s[0], s[1..][j])
  {
    forall j | 0 <= j < |s[1..]| ensures Precedes(s[0], s[1..][j]) {
      assert s[1..][j] == s[j + 1];
    }
  }

  /** A block that may precede every block of `s` and `x` may precede every block of a rearrangement of both. */
  lemma PrecedesInserted(h: FormBlock, x: FormBlock, s: seq<FormBlock>, t: seq<FormBlock>)
    requires forall j :: 0 <= j < |s| ==> Precedes(h, s[j])
    requires Precedes(h, x)
    requires multiset(t) == multiset(s) + multiset{x}
    ensures forall k :: 0 <= k < |t| ==> Precedes(h, t[k])
  {
    forall k | 0 <= k < |t| ensures Precedes(h, t[k]) {
      assert t[k] in multiset(s) + multiset{x};
      if t[k] != x {
        var j :| 0 <= j < |s| && s[j] == t[k];
      }
    }
  }

  /** A block that may precede the head goes in front. */
  lemma InsertFront(x: FormBlock, s: seq<FormBlock>)
    requires Sorted(s) && s != [] && Precedes(x, s[0])
    ensures Insert(x, s) == [x] + s
  {
  }

  /** A block that may not precede the head goes past it. */
  lemma InsertPast(x: FormBlock, s: seq<FormBlock>)
    requires Sorted(s) && s != [] && !Precedes(x, s[0])
    ensures Sorted(s[1..])
    ensures Insert(x, s) == [s[0]] + Insert(x, s[1..])
  {
  }

  /** The blocks of `s` arranged by `Precedes`, equal ranks in input order. */
  function SortBlocks(s: seq<FormBlock>): (r: seq<FormBlock>)
    ensures multiset(r) == multiset(s)
    ensures Sorted(r)
  {
    if s == [] then []
    else
      assert s == [s[0]] + s[1..];
      Insert(s[0], SortBlocks(s[1..]))
  }

  /** The blocks of `s` that have the same rank as `x`, in their order in `s`. */
  function RankClass(s: seq<FormBlock>, x: FormBlock): seq<FormBlock>
  {
    if s == [] then []
    else (if SameRank(s[0], x) then [s[0]] else []) + RankClass(s[1..], x)
  }

  lemma {:induction false} RankClassCons(b: FormBlock, t: seq<FormBlock>, x: FormBlock)
    ensures RankClass([b] + t, x) == (if SameRank(b, x) then [b] else []) + RankClass(t, x)
  {
    assert ([b] + t)[1..] == t;
  }

  lemma {:induction false} InsertRankClass(y: FormBlock, t: seq<FormBlock>, x: FormBlock)
    requires Sorted(t)
    ensures RankClass(Insert(y, t), x) == (if SameRank(y, x) then [y] else []) + RankClass(t, x)
  {
    if t == [] || Precedes(y, t[0]) {
      InsertFrontRankClass(y, t, x);
    } else {
      InsertPast(y, t);
      InsertRankClass(y, t[1..], x);
      InsertPastRankClass(y, t, x);
    }
  }

  /** The step of `InsertRankClass` where `y` goes in front of `t`. */
  lemma InsertFrontRankClass(y: FormBlock, t: seq<FormBlock>, x: FormBlock)
    requires Sorted(t) && (t == [] || Precedes(y, t[0]))
    ensures RankClass(Insert(y, t), x) == (if SameRank(y, x) then [y] else []) + RankClass(t, x)
  {
    if t == [] {
      RankClassCons(y, [], x);
    } else {
      InsertFront(y, t);
      RankClassCons(y, t, x);
    }
  }

  /** The step of `InsertRankClass` where `y` goes past the head of `t`. */
  lemma InsertPastRankClass(y: FormBlock, t: seq<FormBlock>, x: FormBlock)
    requires Sorted(t) && t != [] && !Precedes(y, t[0])
    requires RankClass(Insert(y, t[1..]), x) == (if SameRank(y, x) then [y] else []) + RankClass(t[1..], x)
    ensures RankClass(Insert(y, t), x) == (if SameRank(y, x) then [y] else []) + RankClass(t, x)
  {
    InsertPast(y, t);
    NotBothSameRank(y, t[0], x);
    RankClassPast(y, t[0], t[1..], Insert(y, t[1..]), x);
    HeadTail(t);
  }

  /** Moving `y` past a block `h` leaves the rank class of `x` as it was. */
  lemma RankClassPast(y: FormBlock, h: FormBlock, t: seq<FormBlock>, u: seq<FormBlock>, x: FormBlock)
    requires !(SameRank(y, x) && SameRank(h, x))
    requires RankClass(u, x) == (if SameRank(y, x) then [y] else []) + RankClass(t, x)
    ensures RankClass([h] + u, x) == (if SameRank(y, x) then [y] else []) + RankClass([h] + t, x)
  {
    RankClassCons(h, u, x);
    RankClassCons(h, t, x);
  }

  /** A block placed past `b` cannot share the rank of `x` when `b` does. */
  lemma NotBothSameRank(y: FormBlock, b: FormBlock, x: FormBlock)
    requires !Precedes(y, b)
    ensures !(SameRank(y, x) && SameRank(b, x))
  {
    if SameRank(y, x) && SameRank(b, x) {
      SameRankIsTie(y, b);
    }
  }

  /** Stability: sorting keeps the input order of every class of equal rank. */
  lemma {:induction false} SortIsStable(s: seq<FormBlock>, x: FormBlock)
    ensures RankClass(SortBlocks(s), x) == RankClass(s, x)
  {
    if s != [] {
      SortIsStable(s[1..], x);
      InsertRankClass(s[0], SortBlocks(s[1..]), x);
    }
  }

  /** A bucket already in layout order is left as it is. */
  lemma {:induction false} SortOfSorted(s: seq<FormBlock>)
    requires Sorted(s)
    ensures SortBlocks(s) == s
  {
    if s != [] {
      SortOfSorted(s[1..]);
      if |s| > 1 {
        assert s[1..][0] == s[1];
      }
    }
  }

  lemma SortIdempotent(s: seq<FormBlock>)
    ensures SortBlocks(SortBlocks(s)) == SortBlocks(s)
  {
    SortOfSorted(SortBlocks(s));
  }

  predicate OrderLe(a: FormBlock, b: FormBlock)
  {
    a.order.Some? && b.order.Some? && a.order.value <= b.order.value
  }

  /** Where every block carries an order, the layout is ascending by that number. */
  lemma OrderIsAuthoritative(s: seq<FormBlock>)
    requires forall b :: b in s ==> b.order.Some?
    ensures forall i, j :: 0 <= i < j < |SortBlocks(s)| ==> OrderLe(SortBlocks(s)[i], SortBlocks(s)[j])
  {
    var r := SortBlocks(s);
    forall i, j | 0 <= i < j < |r| ensures OrderLe(r[i], r[j]) {
      assert r[i] in multiset(s) && r[j] in multiset(s);
      assert Precedes(r[i], r[j]);
    }
  }

  /** Where no block carries an order, every required block precedes every optional one. */
  lemma RequiredBeforeOptional(s: seq<FormBlock>)
    requires forall b :: b in s ==> b.order.None?
    ensures forall i, j :: 0 <= i < |SortBlocks(s)| && 0 <= j < |SortBlocks(s)| &&
                          SortBlocks(s)[i].isRequired && !SortBlocks(s)[j].isRequired
                          ==> i < j
  {
    var r := SortBlocks(s);
    forall i, j | 0 <= i < |r| && 0 <= j < |r| && r[i].isRequired && !r[j].isRequired
      ensures i < j
    {
      InSorted(s, r, i);
      InSorted(s, r, j);
      assert Tier(r[i]) == 0 && Tier(r[j]) == 2;
      assert !Precedes(r[j], r[i]) && r[i] != r[j];
    }
  }

  /** A block of a rearrangement of `s` is a block of `s`. */
  lemma InSorted(s: seq<FormBlock>, r: seq<FormBlock>, i: nat)
    requires multiset(r) == multiset(s) && i < |r|
    ensures r[i] in s
  {
    assert r[i] in multiset(s);
  }
}
