/** The `Story` record, its timestamps and the liveness test (modules/Stories.tsx). */
module StoryModel {

  /** An instant in integer milliseconds since the epoch, or `Blank`: the empty
      timestamp string of the expired placeholder, which parses as an invalid date. */
  datatype Instant = At(ms: int) | Blank

  datatype Story = Story(id: string, src: string, createdAt: Instant, expiresAt: Instant, isViewed: bool)

  /** Fixed time-to-live of a story: 1000 * 60 * 60 * 24 milliseconds. */
  const TTL: int := 86_400_000

  /** date-fns `isBefore(a, b)`: `a` is strictly earlier than `b`; false whenever either date is invalid. */
  predicate Before(a: Instant, b: Instant)
  {
    a.At? && b.At? && a.ms < b.ms
  }

  /** `isBefore` is a strict order on valid dates, and an invalid date is before nothing and
      nothing is before it. */
  lemma BeforeStrict(a: Instant, b: Instant, c: Instant)
    ensures !Before(a, a)
    ensures Before(a, b) ==> !Before(b, a)
    ensures Before(a, b) && Before(b, c) ==> Before(a, c)
    ensures a == Blank || b == Blank ==> !Before(a, b)
  {
  }

  /** A story is live at `now` when `now` is strictly before its expiry. */
  predicate Live(now: int, s: Story)
  {
    Before(At(now), s.expiresAt)
  }

  /** A story live at `now` was live at every earlier time, and one with an invalid expiry is
      never live. */
  lemma LiveEarlier(now: int, t: int, s: Story)
    requires t <= now
    ensures Live(now, s) ==> Live(t, s)
    ensures s.expiresAt == Blank ==> !Live(now, s)
  {
  }

  /** The liveness test as a value, for `filter`. */
  function LiveAt(now: int): Story -> bool
  {
    (s: Story) => Live(now, s)
  }

  predicate IsViewed(s: Story)
  {
    s.isViewed
  }

  predicate IsUnviewed(s: Story)
  {
    !s.isViewed
  }

  /** The stories whose `createdAt` is `c`, as a value, for `filter`. */
  function CreatedAt(c: Instant): Story -> bool
  {
    (s: Story) => s.createdAt == c
  }

  /** The story built by the file-input handler as the code is written: the creation time and the
      base of the expiry time come from two separate readings of the clock, `t1` then `t2`. */
  function NewStoryAsWritten(id: string, src: string, t1: int, t2: int): (s: Story)
    ensures s.expiresAt.At? && s.createdAt.At?
    ensures s.expiresAt.ms - s.createdAt.ms == TTL + (t2 - t1)
  {
    Story(id, src, At(t1), At(t2 + TTL), false)
  }

  /** The clock may tick between the two readings, and then the story lives one millisecond
      longer than the fixed time-to-live. */
  lemma NewStoryAsWrittenOvershoots()
    ensures NewStoryAsWritten("a", "", 0, 1).expiresAt != At(0 + TTL)
    ensures NewStoryAsWritten("a", "", 0, 1).createdAt == At(0)
  {
  }

  /** A new story, from one reading `now` of the clock: unviewed and expiring exactly `TTL`
      milliseconds after it was created. */
  function NewStory(id: string, src: string, now: int): (s: Story)
    ensures s.id == id && s.src == src && !s.isViewed
    ensures s.createdAt == At(now) && s.expiresAt.At?
    ensures s.expiresAt.ms == s.createdAt.ms + TTL
  {
    NewStoryAsWritten(id, src, now, now)
  }

  /** A fresh story is live from its creation and stays live for exactly `TTL` milliseconds. */
  lemma NewStoryLifetime(id: string, src: string, now: int, t: int)
    requires now <= t
    ensures Live(t, NewStory(id, src, now)) <==> t < now + TTL
  {
  }

  /** The slide shown in place of a story that has expired by the time it is opened: a fresh
      id, no image and blank timestamps. */
  function Placeholder(freshId: string): (s: Story)
    ensures s.id == freshId && s.src == "" && !s.isViewed
    ensures s.createdAt == Blank && s.expiresAt == Blank
    ensures forall now :: !Live(now, s)
  {
    Story(freshId, "", Blank, Blank, false)
  }
}
