# Stories: a verified model of the 24-hour story lifecycle

This project models the lifecycle engine inside the `Stories` component of a 24-hour stories
feature. A user adds an image and it becomes a story that lives for exactly 24 hours. The
index strip lists the stories, unviewed ones first. Picking one opens a full-screen viewer.
The viewer plays a queue: the chosen story (or an "expired" placeholder), then every other live
story. A 3000 ms timer advances the queue slide by slide and closes the viewer after the last
slide. Every time the current slide changes, the persisted list is rewritten: expired stories
are pruned, the current story is marked viewed, and the list is re-sorted by creation time and
then unviewed-first.

Time is integer milliseconds. The clock, the id generator and the encoded image are
parameters (`now`, `id`/`freshId`, `src`). The store under the `"stories"` key is the field
`stored`. The same-tab and cross-tab change events are explicit methods. A timer tick is an
explicit call that returns a `Command`.

Modules, one per part of the component:

- `StoryModel` (story.dfy): the `Story` record, timestamps (`Instant`), the 24-hour TTL, date-fns
  `isBefore`, liveness, new stories and the expired placeholder.
- `Ordering` (ordering.dfy): the two comparators, JavaScript's stable `sort` and what sorting by
  each comparator gives. Also the add-time re-sort.
- `Selection` (selection.dfy): `find` by id and building the playback queue.
- `Playback` (playback.dfy): the timer decision, a session's ticks, and the viewed-state write-back
  with its content, ordering and stability laws.
- `StoriesComponent` (component.dfy): the class `Stories`, whose fields are the component's state
  and the persisted list, with one method per handler.
- `Seqs` and `Wrappers` (seqs.dfy, wrappers.dfy): `filter` and its laws, and `Option`.

Points where the behaviour is easy to misread, modelled as the code has them:

- Reading the list on mount and on the change events does not drop expired stories
  (modules/Stories.tsx:110, :123). Pruning happens only in the write-back (:163) and in selection
  (:93).
- Adding a story does not prune expired ones (:48-58).
- Selecting an id the list does not hold does nothing (:81).
- The write-back sorts oldest first (:169-181). The index strip order on add is a stable partition
  only (:59-67).

JavaScript's `Array.prototype.sort` is stable. The model uses a stable insertion sort driven by
the source's comparator. For a comparator that is a consistent order, every stable sort gives
the same result.

## Model

| member | source | states |
|---|---|---|
| StoryModel.NewStory | modules/Stories.tsx:50-58 | a new story has the given id and image, is unviewed, is created at `now` and expires exactly `TTL` = 86 400 000 ms later |
| StoryModel.NewStoryLifetime | modules/Stories.tsx:53-57 | a new story is live at every time from its creation up to, but excluding, creation + 24 h |
| StoryModel.NewStoryAsWritten | modules/Stories.tsx:53-56 | with two clock readings `t1`, `t2`, the lifetime is `TTL + (t2 - t1)` |
| StoryModel.NewStoryAsWrittenOvershoots | modules/Stories.tsx:53-56 | readings 0 and 1 give an expiry that is not creation + `TTL` |
| StoryModel.Placeholder | modules/Stories.tsx:84-90 | the placeholder has the fresh id, an empty image, blank creation and expiry timestamps, is unviewed and is never live at any time |
| StoryModel.BeforeStrict | modules/Stories.tsx:171-175 | `isBefore` (`Before`) is irreflexive, asymmetric and transitive, and an invalid date is neither before nor after anything |
| StoryModel.LiveEarlier | modules/Stories.tsx:83 | the liveness test `Live` (`now < expiresAt`, used at :83, :93 and :163) holds at every earlier time once it holds, and never holds for an invalid expiry |
| Ordering.ViewedOrder | modules/Stories.tsx:59-67 | the viewed comparator is positive exactly for viewed-before-unviewed, negative exactly for the reverse, otherwise zero |
| Ordering.CreatedOrder | modules/Stories.tsx:169-181 | on valid dates the creation comparator is positive exactly when the first is later and negative exactly when it is earlier; with an invalid date it is zero |
| Ordering.Sort | modules/Stories.tsx:59 | sorting is a permutation: same length, same multiset of stories |
| Ordering.ViewedSortPartitions | modules/Stories.tsx:59-67 | sorting by the viewed comparator gives the unviewed stories in input order, then the viewed ones in input order |
| Ordering.CreatedSortSorted | modules/Stories.tsx:169-181 | sorting stories that have valid creation times by the creation comparator gives non-decreasing creation time |
| Ordering.CreatedSortStable | modules/Stories.tsx:169-181 | the creation sort keeps stories with the same creation time in input order |
| Ordering.AddToList | modules/Stories.tsx:48-67 | the list written on add is one longer, holds the old stories plus the new one, and is partitioned; `AddToListPlacement` gives its exact order |
| Ordering.AddToListPlacement | modules/Stories.tsx:48-67 | adding an unviewed story gives old unviewed + [new] + old viewed: the list grows by exactly one, nothing is pruned, the result is partitioned |
| Selection.Find | modules/Stories.tsx:79 | finds the first position holding the id, and finds none exactly when no story has it |
| Selection.Rearrange | modules/Stories.tsx:78-98 | the queue is absent exactly when no story has the id; otherwise its length is 1 + the number of other live stories |
| Selection.RearrangeFound | modules/Stories.tsx:83-98 | for a found id: the head is the found story if live, else the placeholder; the tail is exactly the list filtered by `OtherLive` (other id and live, :91-94) in list order, both directions of membership |
| Selection.RearrangeTailLive | modules/Stories.tsx:91-94 | after the head, no slide has the selected id and every slide is live |
| Playback.TickCommand | modules/Stories.tsx:151-155 | a tick exits exactly when the index is defined and is the last position; an undefined index or an empty queue never exits |
| Playback.SessionLength | modules/Stories.tsx:150-155 | from slide `i` of `n`, after `k < n - i` ticks the viewer is on slide `i + k`, and it exits on the `n - i`-th tick |
| Playback.Mark | modules/Stories.tsx:164-168 | marking keeps id, image and both timestamps, and sets the viewed flag exactly when the id matches (or it was already set) |
| Playback.MarkViewed | modules/Stories.tsx:164-168 | same length, and each position holds that story marked for the viewed id |
| Playback.WriteBack | modules/Stories.tsx:162-190 | the list written back is as long as the live list, a permutation of the live stories with the viewed one marked, and partitioned; `WriteBackContents`, `WriteBackCreatedSorted` and `WriteBackStable` give its content and order |
| Playback.WriteBackContents | modules/Stories.tsx:157-168 | the write-back is a permutation of the live stories with the matching one marked: every live story appears marked, nothing else appears, every result is live |
| Playback.WriteBackUnknownId | modules/Stories.tsx:158-168 | writing back an id no story has, such as the placeholder's, marks nothing and only re-orders the live stories |
| Playback.WriteBackPartitioned | modules/Stories.tsx:182-190 | in the write-back every unviewed story precedes every viewed story |
| Playback.WriteBackCreatedSorted | modules/Stories.tsx:169-190 | within each viewed group the write-back is non-decreasing in creation time, when live stories have valid creation times |
| Playback.WriteBackStable | modules/Stories.tsx:169-190 | within each viewed group, stories with equal creation time keep their order from the marked live list |
| Playback.PlayedMarksViewed | modules/Stories.tsx:157-194 | after write-backs for slides 0..k-1 of a queue, every stored story whose id one of those slides had is viewed, and viewed stays viewed |
| Playback.ViewAThenReload | modules/Stories.tsx:157-192 | for any two live, unviewed stories A and B with distinct ids, A created before B, viewing A rewrites the list as [B, A viewed] |
| StoriesComponent.Stories.constructor | modules/Stories.tsx:108-110 | on mount the list is the persisted list verbatim, the viewer is closed, the queue is empty and the index is undefined |
| StoriesComponent.Stories.OnLocalStorageChange | modules/Stories.tsx:121-124 | the same-tab event replaces the list with the persisted list, unfiltered |
| StoriesComponent.Stories.OnStorageEvent | modules/Stories.tsx:113-118 | the cross-tab event replaces the list wholesale for the stories key (empty when the value is absent) and ignores other keys |
| StoriesComponent.Stories.AddStory | modules/Stories.tsx:39-76 | the store becomes the stable unviewed-first partition of old store + new story, one longer; the new story is the only one with its id; the list re-reads the store |
| StoriesComponent.Stories.SelectStory | modules/Stories.tsx:78-100 | an unknown id leaves the queue and open flag untouched; a known id opens the viewer on the rearranged queue |
| StoriesComponent.Stories.ExitViewStory | modules/Stories.tsx:102-106 | exit closes the viewer, empties the queue and clears the index |
| StoriesComponent.Stories.Tick | modules/Stories.tsx:150-155 | on the last index the tick exits and clears everything; otherwise it returns Advance and the state is unchanged |
| StoriesComponent.Stories.OnIndexChange | modules/Stories.tsx:150-199 | the index is recorded; an unchanged index runs nothing; for a new in-range index the store becomes the partitioned write-back for the queue's story there and the list re-reads it; a new index past the end writes the empty list when no story is live and fails without writing otherwise |

## Findings

| source | as written | input that shows it | evidently intended | confidence | as-written member | corrected member |
|---|---|---|---|---|---|---|
| modules/Stories.tsx:53-56 | `createdAt` and the base of `expiresAt` come from two separate `new Date()` calls | the clock ticks one millisecond between the two calls: createdAt 0, expiresAt 86 400 001 | one reading of the clock, so `expiresAt` is exactly `createdAt` + 24 h | not executed; the drift is as small as the time between two calls | StoryModel.NewStoryAsWrittenOvershoots | StoryModel.NewStory |

The class uses the corrected `NewStory`, which reads the clock once.

## Left out

- `localStorage` reads and writes, and `JSON.parse`/`stringify`. The persisted value is the field `stored` holding the parsed list. An absent value is the empty list. Malformed JSON is not modelled.
- A write to the store by another tab. `OnStorageEvent` models only this tab's handler. The shared store itself is not updated by remote writes in the model.
- The window event listeners and `dispatchEvent`. The handlers are methods. `AddStory` and `OnIndexChange` call `OnLocalStorageChange` where the source dispatches the same-tab event.
- `setTimeout`/`clearTimeout` and React's scheduling. A tick is a call to `Tick`. The effect re-runs only on a changed index, as `OnIndexChange` models. Ticks after exit or on an unmounted viewer are not modelled. Neither are stale closures: the timer is assumed to see the current index and queue.
- The carousel API. `Advance` is a returned command. The carousel's next position arrives through `OnIndexChange`. `SessionLength` assumes each advance moves exactly one slide on.
- The dialog shell, all JSX, styling and progress bars.
- `uuidv4` and `getBase64`. Ids and the encoded image are parameters. Fresh ids are assumed unused: that is the `requires` on `AddStory` and `SelectStory`.
- ISO-8601 strings and `Date`. Instants are integer milliseconds. The empty timestamp of the placeholder is `Blank`, an invalid date.
- Repeated clock readings. The source calls `new Date()` once per story in the filters at :93 and :163. The model reads the clock once per handler (`now`).
- Ordering.CreatedSortSorted and Playback.WriteBackCreatedSorted: they require valid creation times. With an invalid `createdAt` the source comparator is not a consistent order, and JavaScript's result is implementation-defined. The model's insertion sort gives one such order.
- React's error handling. An index past the end of the queue leaves no story to match. When some story is live, the source effect throws a TypeError at :165, and `OnIndexChange` reports `ok == false` and writes nothing. When no story is live, the callback never runs and the empty list is written.
- `.filter(Boolean)` at :97 drops nothing, because the first slide is always defined once the id is found.
