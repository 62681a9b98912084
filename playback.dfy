/** The playback timer's decision and the viewed-state write-back of the effect at
    modules/Stories.tsx:150-199. */
module Playback {
  import opened Wrappers
  import opened Seqs
  import opened StoryModel
  import opened Ordering

  /** What a timer tick does: close the viewer, or ask the carousel for the next slide. */
  datatype Command = Advance | Exit

  /** The decision of the 3000 ms timer (lines 151-155): exit when the index is the last position
      of the queue, otherwise advance. An undefined index is never equal to `length - 1`, and
      neither is any index when the queue is empty. */
  function TickCommand(index: Option<nat>, queueLength: nat): (c: Command)
    ensures c == Exit <==> index.Some? && index.value + 1 == queueLength
  {
    match index
    case None => Advance
    case Some(i) => if i == queueLength - 1 then Exit else Advance
  }

  /** Where a viewing session stands: on a slide, or closed. */
  datatype Phase = Viewing(index: nat) | Exited

  /** The phase after `ticks` timer ticks from slide `i` of a queue of `n` slides, when every
      `Advance` moves the carousel exactly one slide on. */
  function AfterTicks(i: nat, n: nat, ticks: nat): Phase
    decreases ticks
  {
    if ticks == 0 then Viewing(i)
    else match TickCommand(Some(i), n)
      case Exit => Exited
      case Advance => AfterTicks(i + 1, n, ticks - 1)
  }

  /** A session started on slide `i` shows each later slide for one tick and closes on exactly the
      `n - i`-th tick: it never advances past the last slide and never closes early. */
  lemma {:induction false} SessionLength(i: nat, n: nat, ticks: nat)
    requires i < n
    ensures AfterTicks(i, n, ticks) == if ticks < n - i then Viewing(i + ticks) else Exited
    decreases ticks
  {
    if ticks > 0 && i + 1 < n {
      SessionLength(i + 1, n, ticks - 1);
    }
  }

  /** The story with `isViewed` set when its id is `id` (the `map` of lines 164-168). */
  function Mark(s: Story, id: string): (r: Story)
    ensures r.id == s.id && r.src == s.src && r.createdAt == s.createdAt && r.expiresAt == s.expiresAt
    ensures r.isViewed == (s.isViewed || s.id == id)
  {
    if s.id == id then s.(isViewed := true) else s
  }

  /** Every story with id `id` marked viewed, every other story unchanged, in place. */
  function MarkViewed(s: seq<Story>, id: string): (r: seq<Story>)
    ensures |r| == |s|
    ensures forall i :: 0 <= i < |s| ==> r[i] == Mark(s[i], id)
    decreases |s|
  {
    if |s| == 0 then [] else MarkViewed(Init(s), id) + [Mark(Last(s), id)]
  }

  /** The list the effect persists when the index is defined and `viewedId` is the id of the queue's
      story at that index (lines 162-190): the live stories, the viewed one marked, sorted by
      creation time and then unviewed-first. */
  function WriteBack(list: seq<Story>, viewedId: string, now: int): (r: seq<Story>)
    ensures |r| == |Filter(list, LiveAt(now))|
    ensures multiset(r) == multiset(MarkViewed(Filter(list, LiveAt(now)), viewedId))
    ensures Partitioned(r)
  {
    var c := Sort(MarkViewed(Filter(list, LiveAt(now)), viewedId), CreatedOrder);
    ViewedSortPartitions(c);
    PartitionedFilters(c);
    Sort(c, ViewedOrder)
  }

  /** The live stories of `list` with the one viewed marked, before the two sorts. */
  function Marked(list: seq<Story>, viewedId: string, now: int): seq<Story>
  {
    MarkViewed(Filter(list, LiveAt(now)), viewedId)
  }

  /** The write-back holds exactly the live stories of the list, nothing else: each story with the
      viewed id now has `isViewed` set and otherwise the same fields, every other story is unchanged,
      and the multiset of stories is that of the marked live list. */
  lemma {:induction false} WriteBackContents(list: seq<Story>, viewedId: string, now: int)
    ensures multiset(WriteBack(list, viewedId, now)) == multiset(Marked(list, viewedId, now))
    ensures |WriteBack(list, viewedId, now)| == |Filter(list, LiveAt(now))|
    ensures forall y :: y in list && Live(now, y) ==> Mark(y, viewedId) in WriteBack(list, viewedId, now)
    ensures forall x :: x in WriteBack(list, viewedId, now) ==>
      exists y :: y in list && Live(now, y) && x == Mark(y, viewedId)
    ensures forall x :: x in WriteBack(list, viewedId, now) ==>
      Live(now, x) && (x.id == viewedId ==> x.isViewed)
  {
    var f := Filter(list, LiveAt(now));
    var m := Marked(list, viewedId, now);
    var r := WriteBack(list, viewedId, now);
    assert multiset(r) == multiset(m);
    forall y | y in list && Live(now, y) ensures Mark(y, viewedId) in r {
      FilterMember(list, LiveAt(now), y);
      var i :| 0 <= i < |f| && f[i] == y;
      assert m[i] == Mark(y, viewedId);
      assert Mark(y, viewedId) in multiset(m);
    }
    forall x | x in r ensures exists y :: y in list && Live(now, y) && x == Mark(y, viewedId) {
      assert x in multiset(m);
      var i :| 0 <= i < |m| && m[i] == x;
      assert x == Mark(f[i], viewedId);
      assert LiveAt(now)(f[i]);
      FilterMember(list, LiveAt(now), f[i]);
    }
  }

  /** Writing back the placeholder's fresh id, which no stored story has, marks nothing: the live
      stories are kept unchanged and only re-ordered. */
  lemma {:induction false} WriteBackUnknownId(list: seq<Story>, freshId: string, now: int)
    requires forall i :: 0 <= i < |list| ==> list[i].id != freshId
    ensures multiset(WriteBack(list, freshId, now)) == multiset(Filter(list, LiveAt(now)))
  {
    var f := Filter(list, LiveAt(now));
    forall i | 0 <= i < |f| ensures f[i].id != freshId {
      assert f[i] in f;
      FilterMember(list, LiveAt(now), f[i]);
    }
    assert MarkViewed(f, freshId) == f;
  }

  /** The write-back puts every unviewed story before every viewed one. */
  lemma {:induction false} WriteBackPartitioned(list: seq<Story>, viewedId: string, now: int)
    ensures Partitioned(WriteBack(list, viewedId, now))
  {
    var c := Sort(Marked(list, viewedId, now), CreatedOrder);
    ViewedSortPartitions(c);
    PartitionedFilters(c);
  }

  /** Filtering keeps a creation-sorted sequence sorted. */
  lemma {:induction false} FilterCreatedSorted(s: seq<Story>, p: Story -> bool)
    requires CreatedSorted(s)
    ensures CreatedSorted(Filter(s, p))
    decreases |s|
  {
    if |s| > 0 {
      var l := Last(s);
      var f := Filter(Init(s), p);
      FilterCreatedSorted(Init(s), p);
      if p(l) {
        forall i | 0 <= i < |f| ensures !Before(l.createdAt, f[i].createdAt) {
          assert f[i] in f;
          FilterMember(Init(s), p, f[i]);
          var k :| 0 <= k < |Init(s)| && Init(s)[k] == f[i];
          assert s[k] == f[i] && s[|s| - 1] == l;
        }
        assert Filter(s, p) == f + [l];
      }
    }
  }

  /** Within each group, the write-back is in non-decreasing creation time, provided the live
      stories carry valid creation times. */
  lemma {:induction false} WriteBackCreatedSorted(list: seq<Story>, viewedId: string, now: int)
    requires forall y :: y in list && Live(now, y) ==> y.createdAt.At?
    ensures forall i, j :: (0 <= i < j < |WriteBack(list, viewedId, now)| &&
      WriteBack(list, viewedId, now)[i].isViewed == WriteBack(list, viewedId, now)[j].isViewed) ==>
        WriteBack(list, viewedId, now)[i].createdAt.At? &&
        WriteBack(list, viewedId, now)[j].createdAt.At? &&
        WriteBack(list, viewedId, now)[i].createdAt.ms <= WriteBack(list, viewedId, now)[j].createdAt.ms
  {
    var f := Filter(list, LiveAt(now));
    var m := Marked(list, viewedId, now);
    var c := Sort(m, CreatedOrder);
    var r := WriteBack(list, viewedId, now);
    assert Stamped(m) by {
      forall i | 0 <= i < |m| ensures m[i].createdAt.At? {
        assert f[i] in f;
        FilterMember(list, LiveAt(now), f[i]);
      }
    }
    CreatedSortSorted(m);
    ViewedSortPartitions(c);
    var u, v := Filter(c, IsUnviewed), Filter(c, IsViewed);
    FilterCreatedSorted(c, IsUnviewed);
    FilterCreatedSorted(c, IsViewed);
    assert r == u + v;
    forall i, j | 0 <= i < j < |r| && r[i].isViewed == r[j].isViewed
      ensures r[i].createdAt.At? && r[j].createdAt.At? && r[i].createdAt.ms <= r[j].createdAt.ms
    {
      assert r[i] in multiset(c) && r[j] in multiset(c);
      assert r[i].createdAt.At? && r[j].createdAt.At?;
      if j < |u| {
        assert r[i] == u[i] && r[j] == u[j];
      } else if |u| <= i {
        assert r[i] == v[i - |u|] && r[j] == v[j - |u|];
      }
    }
  }

  /** Filtering one group out of a stable partition gives back that group. */
  lemma {:induction false} PartitionGroups(s: seq<Story>)
    ensures Filter(Filter(s, IsUnviewed) + Filter(s, IsViewed), IsUnviewed) == Filter(s, IsUnviewed)
    ensures Filter(Filter(s, IsUnviewed) + Filter(s, IsViewed), IsViewed) == Filter(s, IsViewed)
  {
    var u, v := Filter(s, IsUnviewed), Filter(s, IsViewed);
    FilterAppend(u, v, IsUnviewed);
    FilterAppend(u, v, IsViewed);
    FilterKeepsAll(u, IsUnviewed);
    FilterKeepsAll(v, IsViewed);
    forall i | 0 <= i < |u| ensures !IsViewed(u[i]) { assert IsUnviewed(u[i]); }
    forall i | 0 <= i < |v| ensures !IsUnviewed(v[i]) { assert IsViewed(v[i]); }
    FilterDropsAll(u, IsViewed);
    FilterDropsAll(v, IsUnviewed);
  }

  /** Within each group, stories that share a creation time keep the order they had in the list. */
  lemma {:induction false} WriteBackStable(list: seq<Story>, viewedId: string, now: int, t: Instant)
    ensures Filter(Filter(WriteBack(list, viewedId, now), IsUnviewed), CreatedAt(t)) ==
            Filter(Filter(Marked(list, viewedId, now), IsUnviewed), CreatedAt(t))
    ensures Filter(Filter(WriteBack(list, viewedId, now), IsViewed), CreatedAt(t)) ==
            Filter(Filter(Marked(list, viewedId, now), IsViewed), CreatedAt(t))
  {
    var m := Marked(list, viewedId, now);
    var c := Sort(m, CreatedOrder);
    ViewedSortPartitions(c);
    PartitionGroups(c);
    CreatedSortStable(m, t);
    FilterCommute(c, IsUnviewed, CreatedAt(t));
    FilterCommute(m, IsUnviewed, CreatedAt(t));
    FilterCommute(c, IsViewed, CreatedAt(t));
    FilterCommute(m, IsViewed, CreatedAt(t));
  }

  /** The stored list after write-backs at slides `0 .. |times| - 1` of `queue`, the one for slide
      `j` at time `times[j]`, each reading the list the previous one wrote. */
  function Played(list: seq<Story>, queue: seq<Story>, times: seq<int>): seq<Story>
    requires |times| <= |queue|
    decreases |times|
  {
    if |times| == 0 then list
    else WriteBack(Played(list, queue, Init(times)), queue[|times| - 1].id, Last(times))
  }

  /** After a session has shown slides `0 .. k - 1`, every stored story whose id one of those slides
      had is viewed, and a story once viewed stays viewed. */
  lemma {:induction false} PlayedMarksViewed(list: seq<Story>, queue: seq<Story>, times: seq<int>)
    requires |times| <= |queue|
    ensures forall x, j :: x in Played(list, queue, times) && 0 <= j < |times| && x.id == queue[j].id ==>
      x.isViewed
    decreases |times|
  {
    if |times| > 0 {
      var n := |times|;
      var prev := Played(list, queue, Init(times));
      PlayedMarksViewed(list, queue, Init(times));
      WriteBackContents(prev, queue[n - 1].id, Last(times));
      forall x, j | x in Played(list, queue, times) && 0 <= j < n && x.id == queue[j].id
        ensures x.isViewed
      {
        var y :| y in prev && Live(Last(times), y) && x == Mark(y, queue[n - 1].id);
        if j < n - 1 {
          assert y.id == queue[j].id;
        }
      }
    }
  }

  /** Two stories in creation order stay in that order under the creation sort. */
  lemma {:induction false} TwoStoriesCreatedSort(x: Story, y: Story)
    requires Before(x.createdAt, y.createdAt)
    ensures Sort([x, y], CreatedOrder) == [x, y]
  {
    assert Init([x, y]) == [x] && Last([x, y]) == y;
    assert Init([x]) == [] && Last([x]) == x;
    assert Sort([x], CreatedOrder) == [x];
    assert CreatedOrder(x, y) == -1;
  }

  /** A viewed story followed by an unviewed one swap places under the viewed sort. */
  lemma {:induction false} TwoStoriesViewedSort(x: Story, y: Story)
    requires x.isViewed && !y.isViewed
    ensures Sort([x, y], ViewedOrder) == [y, x]
  {
    ViewedSortPartitions([x, y]);
    assert Filter([x, y], IsUnviewed) == [y] by {
      FilterAppend([x], [y], IsUnviewed);
      FilterSingleton(x, IsUnviewed);
      FilterSingleton(y, IsUnviewed);
      assert [x] + [y] == [x, y];
    }
    assert Filter([x, y], IsViewed) == [x] by {
      FilterAppend([x], [y], IsViewed);
      FilterSingleton(x, IsViewed);
      FilterSingleton(y, IsViewed);
      assert [x] + [y] == [x, y];
    }
  }

  /** Two live unviewed stories A and B, B created after A: viewing A rewrites the list as B,
      then A marked viewed. */
  lemma {:induction false} ViewAThenReload(a: Story, b: Story, now: int)
    requires !a.isViewed && !b.isViewed && a.id != b.id
    requires Before(a.createdAt, b.createdAt) && Live(now, a) && Live(now, b)
    ensures WriteBack([a, b], a.id, now) == [b, a.(isViewed := true)]
  {
    var a' := a.(isViewed := true);
    var f := Filter([a, b], LiveAt(now));
    assert f == [a, b] by {
      FilterKeepsAll([a, b], LiveAt(now));
    }
    var m := MarkViewed(f, a.id);
    assert m == [a', b] by {
      assert m[0] == Mark(a, a.id) && m[1] == Mark(b, a.id);
    }
    TwoStoriesCreatedSort(a', b);
    TwoStoriesViewedSort(a', b);
  }
}
