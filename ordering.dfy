/** The two comparators of modules/Stories.tsx, JavaScript's stable `Array.prototype.sort`,
    and the ordering laws they give. */
module Ordering {
  import opened Seqs
  import opened StoryModel

  /** Comparator that puts unviewed stories before viewed ones (lines 59-67 and 182-190). */
  function ViewedOrder(a: Story, b: Story): (r: int)
    ensures -1 <= r <= 1
    ensures r > 0 <==> a.isViewed && !b.isViewed
    ensures r < 0 <==> b.isViewed && !a.isViewed
  {
    if a.isViewed && !b.isViewed then 1
    else if !a.isViewed && b.isViewed then -1
    else 0
  }

  /** Comparator that puts earlier `createdAt` first (lines 169-181). */
  function CreatedOrder(a: Story, b: Story): (r: int)
    ensures -1 <= r <= 1
    ensures a.createdAt.At? && b.createdAt.At? ==>
      (r > 0 <==> b.createdAt.ms < a.createdAt.ms) && (r < 0 <==> a.createdAt.ms < b.createdAt.ms)
    ensures a.createdAt == Blank || b.createdAt == Blank ==> r == 0
  {
    if Before(b.createdAt, a.createdAt) then 1
    else if Before(a.createdAt, b.createdAt) then -1
    else 0
  }

  /** Inserts `x` into `t` after every element that the comparator does not rank above `x`. */
  function Insert(t: seq<Story>, x: Story, cmp: (Story, Story) -> int): (r: seq<Story>)
    ensures |r| == |t| + 1
    ensures multiset(r) == multiset(t) + multiset{x}
    decreases |t|
  {
    if |t| == 0 || cmp(Last(t), x) <= 0 then t + [x]
    else
      assert t == Init(t) + [Last(t)];
      Insert(Init(t), x, cmp) + [Last(t)]
  }

  /** A stable sort by `cmp`: insertion sort, which keeps equal elements in input order.
      For a comparator that is a consistent order, every stable sort returns this sequence. */
  function Sort(s: seq<Story>, cmp: (Story, Story) -> int): (r: seq<Story>)
    ensures |r| == |s|
    ensures multiset(r) == multiset(s)
    decreases |s|
  {
    if |s| == 0 then []
    else
      assert s == Init(s) + [Last(s)];
      Insert(Sort(Init(s), cmp), Last(s), cmp)
  }

  /** Every viewed story comes after every unviewed one. */
  predicate Partitioned(s: seq<Story>)
  {
    forall i, j :: 0 <= i < j < |s| && s[i].isViewed ==> s[j].isViewed
  }

  /** No story is preceded by one created strictly later. */
  predicate CreatedSorted(s: seq<Story>)
  {
    forall i, j :: 0 <= i < j < |s| ==> !Before(s[j].createdAt, s[i].createdAt)
  }

  /** Every story carries a valid creation time. */
  predicate Stamped(s: seq<Story>)
  {
    forall i :: 0 <= i < |s| ==> s[i].createdAt.At?
  }

  lemma {:induction false} InsertUnviewed(u: seq<Story>, v: seq<Story>, x: Story)
    requires forall i :: 0 <= i < |u| ==> !u[i].isViewed
    requires forall i :: 0 <= i < |v| ==> v[i].isViewed
    requires !x.isViewed
    ensures Insert(u + v, x, ViewedOrder) == u + [x] + v
    decreases |v|
  {
    if |v| > 0 {
      var w := u + v;
      assert Last(w) == Last(v);
      assert Init(w) == u + Init(v);
      assert ViewedOrder(Last(w), x) == 1;
      assert Insert(w, x, ViewedOrder) == Insert(u + Init(v), x, ViewedOrder) + [Last(v)];
      InsertUnviewed(u, Init(v), x);
      assert u + [x] + Init(v) + [Last(v)] == u + [x] + v;
    } else {
      assert u + v == u;
      if |u| > 0 {
        assert ViewedOrder(Last(u), x) == 0;
      }
    }
  }

  lemma InsertViewed(t: seq<Story>, x: Story)
    requires x.isViewed
    ensures Insert(t, x, ViewedOrder) == t + [x]
  {
    if |t| > 0 {
      assert ViewedOrder(Last(t), x) <= 0;
    }
  }

  /** Sorting by `ViewedOrder` is exactly the stable partition: the unviewed stories in their
      order, then the viewed ones in theirs. */
  lemma {:induction false} ViewedSortPartitions(s: seq<Story>)
    ensures Sort(s, ViewedOrder) == Filter(s, IsUnviewed) + Filter(s, IsViewed)
    decreases |s|
  {
    if |s| > 0 {
      var x := Last(s);
      ViewedSortPartitions(Init(s));
      var u, v := Filter(Init(s), IsUnviewed), Filter(Init(s), IsViewed);
      assert Sort(s, ViewedOrder) == Insert(u + v, x, ViewedOrder);
      if x.isViewed {
        InsertViewed(u + v, x);
        assert Filter(s, IsUnviewed) == u;
        assert Filter(s, IsViewed) == v + [x];
        assert u + v + [x] == u + (v + [x]);
      } else {
        InsertUnviewed(u, v, x);
        assert Filter(s, IsUnviewed) == u + [x];
        assert Filter(s, IsViewed) == v;
      }
    }
  }

  /** An unviewed part followed by a viewed part is partitioned. */
  lemma PartitionedConcat(u: seq<Story>, v: seq<Story>)
    requires forall i :: 0 <= i < |u| ==> !u[i].isViewed
    requires forall i :: 0 <= i < |v| ==> v[i].isViewed
    ensures Partitioned(u + v)
  {
  }

  /** The two groups of a stable partition. */
  lemma PartitionedFilters(s: seq<Story>)
    ensures Partitioned(Filter(s, IsUnviewed) + Filter(s, IsViewed))
  {
    var u, v := Filter(s, IsUnviewed), Filter(s, IsViewed);
    forall i | 0 <= i < |u| ensures !u[i].isViewed { assert IsUnviewed(u[i]); }
    forall i | 0 <= i < |v| ensures v[i].isViewed { assert IsViewed(v[i]); }
    PartitionedConcat(u, v);
  }

  lemma {:induction false} InsertCreatedSorted(t: seq<Story>, x: Story)
    requires Stamped(t) && x.createdAt.At? && CreatedSorted(t)
    ensures CreatedSorted(Insert(t, x, CreatedOrder))
    decreases |t|
  {
    if |t| > 0 && CreatedOrder(Last(t), x) > 0 {
      var l := Last(t);
      var r' := Insert(Init(t), x, CreatedOrder);
      InsertCreatedSorted(Init(t), x);
      assert forall i :: 0 <= i < |r'| ==> r'[i].createdAt.At? && r'[i].createdAt.ms <= l.createdAt.ms by {
        forall i | 0 <= i < |r'|
          ensures r'[i].createdAt.At? && r'[i].createdAt.ms <= l.createdAt.ms
        {
          assert r'[i] in multiset(Init(t)) + multiset{x};
          if r'[i] != x {
            assert r'[i] in Init(t);
            var k :| 0 <= k < |Init(t)| && Init(t)[k] == r'[i];
            assert t[k] == r'[i] && t[|t| - 1] == l;
          }
        }
      }
      assert Insert(t, x, CreatedOrder) == r' + [l];
    }
  }

  /** Sorting stamped stories by `CreatedOrder` puts them in non-decreasing creation time. */
  lemma {:induction false} CreatedSortSorted(s: seq<Story>)
    requires Stamped(s)
    ensures CreatedSorted(Sort(s, CreatedOrder))
    ensures Stamped(Sort(s, CreatedOrder))
    decreases |s|
  {
    var r := Sort(s, CreatedOrder);
    if |s| > 0 {
      CreatedSortSorted(Init(s));
      var r' := Sort(Init(s), CreatedOrder);
      assert Stamped(r') by {
        forall i | 0 <= i < |r'| ensures r'[i].createdAt.At? {
          assert r'[i] in multiset(Init(s));
          assert r'[i] in s;
        }
      }
      InsertCreatedSorted(r', Last(s));
    }
    assert Stamped(r) by {
      forall i | 0 <= i < |r| ensures r[i].createdAt.At? {
        assert r[i] in multiset(s);
      }
    }
  }

  lemma {:induction false} InsertCreatedStable(t: seq<Story>, x: Story, c: Instant)
    ensures Filter(Insert(t, x, CreatedOrder), CreatedAt(c)) ==
            Filter(t, CreatedAt(c)) + Filter([x], CreatedAt(c))
    decreases |t|
  {
    var p := CreatedAt(c);
    if |t| == 0 || CreatedOrder(Last(t), x) <= 0 {
      assert Insert(t, x, CreatedOrder) == t + [x];
      FilterAppend(t, [x], p);
    } else {
      var l := Last(t);
      var r' := Insert(Init(t), x, CreatedOrder);
      assert Insert(t, x, CreatedOrder) == r' + [l];
      InsertCreatedStable(Init(t), x, c);
      assert Filter(t, p) == Filter(Init(t), p) + Filter([l], p) by {
        InitLast(t);
        FilterAppend(Init(t), [l], p);
      }
      assert Filter(r' + [l], p) == Filter(r', p) + Filter([l], p) by {
        FilterAppend(r', [l], p);
      }
      assert Filter([x], p) + Filter([l], p) == Filter([l], p) + Filter([x], p) by {
        assert Before(x.createdAt, l.createdAt);
        FilterSingleton(x, p);
        FilterSingleton(l, p);
      }
    }
  }

  /** Sorting by `CreatedOrder` keeps stories that share a creation time in their input order. */
  lemma {:induction false} CreatedSortStable(s: seq<Story>, c: Instant)
    ensures Filter(Sort(s, CreatedOrder), CreatedAt(c)) == Filter(s, CreatedAt(c))
    decreases |s|
  {
    if |s| > 0 {
      CreatedSortStable(Init(s), c);
      InsertCreatedStable(Sort(Init(s), CreatedOrder), Last(s), c);
      FilterAppend(Init(s), [Last(s)], CreatedAt(c));
      InitLast(s);
    }
  }

  /** The list written back by the file-input handler: the stored list with the new story
      appended, sorted unviewed-first (lines 48-67). */
  function AddToList(stored: seq<Story>, story: Story): (r: seq<Story>)
    ensures |r| == |stored| + 1
    ensures multiset(r) == multiset(stored) + multiset{story}
    ensures Partitioned(r)
  {
    var s := stored + [story];
    assert multiset(s) == multiset(stored) + multiset{story};
    ViewedSortPartitions(s);
    PartitionedFilters(s);
    Sort(s, ViewedOrder)
  }

  /** Adding an unviewed story grows the list by exactly one, prunes nothing, and places the new
      story after every earlier unviewed story and before every viewed one; the result is a stable
      partition of the old list plus the story. */
  lemma {:induction false} AddToListPlacement(stored: seq<Story>, story: Story)
    requires !story.isViewed
    ensures AddToList(stored, story) ==
            Filter(stored, IsUnviewed) + [story] + Filter(stored, IsViewed)
    ensures |AddToList(stored, story)| == |stored| + 1
    ensures multiset(AddToList(stored, story)) == multiset(stored) + multiset{story}
    ensures Partitioned(AddToList(stored, story))
  {
    var s := stored + [story];
    var u, v := Filter(stored, IsUnviewed), Filter(stored, IsViewed);
    assert Init(s) == stored && Last(s) == story;
    assert AddToList(stored, story) == Insert(Sort(stored, ViewedOrder), story, ViewedOrder);
    ViewedSortPartitions(stored);
    InsertUnviewed(u, v, story);
    assert forall i :: 0 <= i < |u + [story]| ==> !(u + [story])[i].isViewed by {
      forall i | 0 <= i < |u + [story]| ensures !(u + [story])[i].isViewed {
        if i < |u| { assert IsUnviewed(u[i]); }
      }
    }
    assert forall i :: 0 <= i < |v| ==> v[i].isViewed by {
      forall i | 0 <= i < |v| ensures v[i].isViewed { assert IsViewed(v[i]); }
    }
    PartitionedConcat(u + [story], v);
  }
}
