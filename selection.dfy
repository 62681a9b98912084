/** Selecting a story from the index strip and building the playback queue
    (`handleSelectStory`, modules/Stories.tsx:78-100). */
module Selection {
  import opened Wrappers
  import opened Seqs
  import opened StoryModel

  /** `Array.prototype.find` by id, as the position of the first story with that id. */
  function Find(s: seq<Story>, id: string): (r: Option<nat>)
    ensures r.Some? ==> r.value < |s| && s[r.value].id == id
    ensures r.Some? ==> forall j :: 0 <= j < r.value ==> s[j].id != id
    ensures r.None? <==> forall j :: 0 <= j < |s| ==> s[j].id != id
    decreases |s|
  {
    if |s| == 0 then None
    else if s[0].id == id then Some(0)
    else match Find(s[1..], id)
      case None => None
      case Some(k) => Some(k + 1)
  }

  /** The filter of line 93: every story with another id that is still live. */
  function OtherLive(id: string, now: int): Story -> bool
  {
    (s: Story) => s.id != id && Live(now, s)
  }

  /** The playback queue for `id`, or `None` when no story in `list` has that id. The first slide
      is the found story, or a placeholder when it has expired; the other live stories follow. */
  function Rearrange(list: seq<Story>, id: string, freshId: string, now: int): (r: Option<seq<Story>>)
    ensures r.None? <==> forall j :: 0 <= j < |list| ==> list[j].id != id
    ensures r.Some? ==> |r.value| == 1 + |Filter(list, OtherLive(id, now))|
  {
    match Find(list, id)
    case None => None
    case Some(k) =>
      var first := if Live(now, list[k]) then list[k] else Placeholder(freshId);
      Some([first] + Filter(list, OtherLive(id, now)))
  }

  /** Selecting an id that is in the list yields a queue headed by the first story with that id
      when it is live, and by a placeholder with the fresh id and no image when it has expired;
      the rest of the queue holds exactly the other live stories of the list, in list order. */
  lemma {:induction false} RearrangeFound(list: seq<Story>, id: string, freshId: string, now: int, k: nat)
    requires k < |list| && list[k].id == id
    requires forall j :: 0 <= j < k ==> list[j].id != id
    ensures Rearrange(list, id, freshId, now).Some?
    ensures Live(now, list[k]) ==> Rearrange(list, id, freshId, now).value[0] == list[k]
    ensures !Live(now, list[k]) ==> Rearrange(list, id, freshId, now).value[0] == Placeholder(freshId)
    ensures Rearrange(list, id, freshId, now).value[1..] == Filter(list, OtherLive(id, now))
    ensures forall x :: x in Rearrange(list, id, freshId, now).value[1..] <==>
      x in list && x.id != id && Live(now, x)
  {
    var q := Rearrange(list, id, freshId, now);
    assert Find(list, id) == Some(k);
    assert q.value[1..] == Filter(list, OtherLive(id, now));
    forall x ensures x in q.value[1..] <==> x in list && x.id != id && Live(now, x) {
      FilterMember(list, OtherLive(id, now), x);
    }
  }

  /** Apart from its first slide, the queue holds no story with the selected id and no story that
      has expired. */
  lemma {:induction false} RearrangeTailLive(list: seq<Story>, id: string, freshId: string, now: int)
    requires Rearrange(list, id, freshId, now).Some?
    ensures forall i :: 1 <= i < |Rearrange(list, id, freshId, now).value| ==>
      Rearrange(list, id, freshId, now).value[i].id != id &&
      Live(now, Rearrange(list, id, freshId, now).value[i])
  {
    var q := Rearrange(list, id, freshId, now).value;
    var f := Filter(list, OtherLive(id, now));
    assert q == [q[0]] + f;
    forall i | 1 <= i < |q| ensures q[i].id != id && Live(now, q[i]) {
      assert q[i] == f[i - 1];
      assert OtherLive(id, now)(f[i - 1]);
    }
  }
}
