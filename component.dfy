/** The `Stories` component's state and handlers (modules/Stories.tsx:24-199), with the React state,
    the shared store and the window events made explicit. */
module StoriesComponent {
  import opened Wrappers
  import opened Seqs
  import opened StoryModel
  import opened Ordering
  import opened Selection
  import opened Playback

  /** The one storage key the component reads and writes. */
  const StoriesKey: string := "stories"

  class Stories {
    /** The value persisted under `StoriesKey`; the empty list stands for an absent value. */
    var stored: seq<Story>
    /** The list shown in the index strip. */
    var listOfStories: seq<Story>
    /** The playback queue. */
    var rearrangeStories: seq<Story>
    /** Whether the viewer dialog is open. */
    var open: bool
    /** The slide the carousel reports as current, `None` for `undefined`. */
    var indexInProgressStory: Option<nat>

    /** The viewer is open exactly while it has a queue to play. A standalone invariant: every
        handler preserves it, and no contract depends on it beyond that. */
    predicate Valid()
      reads this
    {
      open <==> |rearrangeStories| > 0
    }

    /** Mounting reads the persisted list as it is, with no expiry filter (lines 108-110). */
    constructor (persisted: seq<Story>)
      ensures Valid()
      ensures stored == persisted && listOfStories == persisted
      ensures rearrangeStories == [] && !open && indexInProgressStory == None
    {
      stored := persisted;
      listOfStories := persisted;
      rearrangeStories := [];
      open := false;
      indexInProgressStory := None;
    }

    /** The same-tab change event: re-read the whole persisted list, unfiltered (lines 121-124). */
    method OnLocalStorageChange()
      modifies this`listOfStories
      ensures listOfStories == stored
    {
      listOfStories := stored;
    }

    /** The cross-tab `storage` event: replace the list wholesale with the new value of the stories
        key (an empty list when the value is absent); any other key is ignored (lines 113-118). */
    method OnStorageEvent(key: string, newValue: Option<seq<Story>>)
      modifies this`listOfStories
      ensures key == StoriesKey ==> listOfStories == newValue.GetOr([])
      ensures key != StoriesKey ==> listOfStories == old(listOfStories)
    {
      if key == StoriesKey {
        listOfStories := newValue.GetOr([]);
      }
    }

    /** The file-input handler (lines 39-76) once the image is encoded as `src`: append a new story
        to the persisted list, sort it unviewed-first, store it and notify this tab. `id` comes from
        the id generator and is not yet in use. */
    method AddStory(id: string, src: string, now: int)
      requires forall i :: 0 <= i < |stored| ==> stored[i].id != id
      modifies this`stored, this`listOfStories
      ensures stored == AddToList(old(stored), NewStory(id, src, now))
      ensures stored == Filter(old(stored), IsUnviewed) + [NewStory(id, src, now)] + Filter(old(stored), IsViewed)
      ensures |stored| == |old(stored)| + 1 && Partitioned(stored)
      ensures forall i :: 0 <= i < |stored| && stored[i].id == id ==> stored[i] == NewStory(id, src, now)
      ensures listOfStories == stored
    {
      var story := NewStory(id, src, now);
      ghost var before := stored;
      stored := AddToList(stored, story);
      AddToListPlacement(before, story);
      forall i | 0 <= i < |stored| && stored[i].id == id ensures stored[i] == story {
        assert stored[i] in multiset(before) + multiset{story};
      }
      OnLocalStorageChange();
    }

    /** Selecting a story from the strip (lines 78-100). An id the in-memory list does not hold
        changes nothing; otherwise the viewer opens on the queue `Rearrange` builds. `freshId` comes
        from the id generator, for the placeholder of an expired story. */
    method SelectStory(storyId: string, freshId: string, now: int)
      requires Valid()
      requires forall i :: 0 <= i < |listOfStories| ==> listOfStories[i].id != freshId
      modifies this`rearrangeStories, this`open
      ensures Valid()
      ensures Rearrange(listOfStories, storyId, freshId, now).None? ==>
        rearrangeStories == old(rearrangeStories) && open == old(open)
      ensures Rearrange(listOfStories, storyId, freshId, now).Some? ==>
        rearrangeStories == Rearrange(listOfStories, storyId, freshId, now).value && open
    {
      match Rearrange(listOfStories, storyId, freshId, now)
      case None =>
      case Some(queue) =>
        rearrangeStories := queue;
        open := true;
    }

    /** Closing the viewer: close, drop the queue, forget the index (lines 102-106). */
    method ExitViewStory()
      modifies this`open, this`rearrangeStories, this`indexInProgressStory
      ensures Valid()
      ensures !open && rearrangeStories == [] && indexInProgressStory == None
    {
      open := false;
      rearrangeStories := [];
      indexInProgressStory := None;
    }

    /** The 3000 ms timer firing (lines 151-155): on the last slide it closes the viewer; on any
        other index, or with no index, it only asks the carousel to advance and changes nothing. */
    method Tick() returns (cmd: Command)
      requires Valid()
      modifies this`open, this`rearrangeStories, this`indexInProgressStory
      ensures Valid()
      ensures cmd == TickCommand(old(indexInProgressStory), |old(rearrangeStories)|)
      ensures cmd == Exit <==>
        old(indexInProgressStory).Some? && old(indexInProgressStory).value + 1 == |old(rearrangeStories)|
      ensures cmd == Exit ==> !open && rearrangeStories == [] && indexInProgressStory == None
      ensures cmd == Advance ==>
        open == old(open) && rearrangeStories == old(rearrangeStories) &&
        indexInProgressStory == old(indexInProgressStory)
    {
      cmd := TickCommand(indexInProgressStory, |rearrangeStories|);
      if cmd == Exit {
        ExitViewStory();
      }
    }

    /** The carousel reporting its current slide, and the effect that follows (lines 143-147 and
        157-194). The effect re-runs only when the index changes (line 199). For a defined index,
        the live stories of the in-memory list are written back with the queue's story at that
        index marked viewed, and this tab re-reads them. An index past the end of the queue leaves
        no story to match: when some story is live, reading its id throws before anything is written
        (`ok` is false); when none is, the callback never runs and the empty list is written. */
    method OnIndexChange(index: Option<nat>, now: int) returns (ok: bool)
      requires Valid()
      modifies this`indexInProgressStory, this`stored, this`listOfStories
      ensures Valid()
      ensures indexInProgressStory == index
      ensures index == old(indexInProgressStory) ==>
        ok && stored == old(stored) && listOfStories == old(listOfStories)
      ensures index != old(indexInProgressStory) ==>
        (ok <==> index.None? || index.value < |rearrangeStories| || Filter(old(listOfStories), LiveAt(now)) == [])
      ensures index != old(indexInProgressStory) && index.Some? && index.value < |rearrangeStories| ==>
        stored == WriteBack(old(listOfStories), rearrangeStories[index.value].id, now) &&
        Partitioned(stored) && listOfStories == stored
      ensures (index != old(indexInProgressStory) && index.Some? && index.value >= |rearrangeStories| &&
        Filter(old(listOfStories), LiveAt(now)) == []) ==> stored == [] && listOfStories == []
      ensures index.None? || !ok ==> stored == old(stored) && listOfStories == old(listOfStories)
    {
      ok := true;
      if index == indexInProgressStory {
        return;
      }
      indexInProgressStory := index;
      match index
      case None =>
      case Some(i) =>
        if i < |rearrangeStories| {
          var viewedId := rearrangeStories[i].id;
          stored := WriteBack(listOfStories, viewedId, now);
          WriteBackPartitioned(old(listOfStories), viewedId, now);
          OnLocalStorageChange();
        } else if Filter(listOfStories, LiveAt(now)) == [] {
          stored := [];
          OnLocalStorageChange();
        } else {
          ok := false;
        }
    }
  }

  /** One story added, opened an hour later: the queue is that story alone and the first tick after
      the carousel reports slide 0 closes the viewer instead of advancing. */
  method ScenarioSingleStory(id: string, src: string, freshId: string, t0: int)
    requires freshId != id
  {
    var e := new Stories([]);
    e.AddStory(id, src, t0);
    var a := NewStory(id, src, t0);
    assert e.listOfStories == [a] by {
      var none: seq<Story> := [];
      assert Filter(none, IsUnviewed) == [] && Filter(none, IsViewed) == [];
    }
    var t1 := t0 + 3_600_000;
    assert Rearrange([a], id, freshId, t1) == Some([a]) by {
      FilterSingleton(a, OtherLive(id, t1));
      assert Find([a], id) == Some(0);
    }
    e.SelectStory(id, freshId, t1);
    var ok := e.OnIndexChange(Some(0), t1);
    var cmd := e.Tick();
    assert cmd == Exit && !e.open && e.rearrangeStories == [];
  }
}
