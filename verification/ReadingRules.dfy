/** The decisions of the reading service: status transitions and which rewards an update earns. */
module ReadingRules {
  import opened Wrappers
  import opened Keys
  import opened InkStores

  datatype Status = Reading | Completed | OnHold | Dropped | PlanToRead

  /** The unique (user, series) pair of a reading record. */
  datatype Slot = Slot(user: UserId, series: SeriesId)

  datatype Record = Record(status: Status, currentChapter: nat, completedAt: Option<int>)

  const CHAPTER_MILESTONE_INTERVAL: nat := 25

  function Lookup<K, V>(m: map<K, V>, k: K): Option<V> { if k in m then Some(m[k]) else None }

  function Max(a: nat, b: nat): nat { if a >= b then a else b }

  function PrevChapter(existing: Option<Record>): nat
  {
    if existing.Some? then existing.value.currentChapter else 0
  }

  predicate WasCompleted(existing: Option<Record>)
  {
    existing.Some? && existing.value.status == Completed
  }

  /** The reader is at or past the last live chapter of the series. */
  predicate ReachedEnd(chapter: nat, last: Option<real>)
  {
    last.Some? && chapter as real >= last.value
  }

  /** COMPLETED is earned, not chosen; READING never downgrades a completed series. */
  function DecideStatus(requested: Status, existing: Option<Record>, newChapter: nat, last: Option<real>): Status
  {
    if requested == Completed && !WasCompleted(existing) then
      if ReachedEnd(newChapter, last) then Completed else Reading
    else if WasCompleted(existing) && requested == Reading then Completed
    else requested
  }

  /** The upsert of the reading record; `existing` is the earlier read, `current` the row at write time. */
  function UpsertRecord(existing: Option<Record>, current: Option<Record>, status: Status, chapter: nat,
      now: int): Record
  {
    if current.None? then
      Record(status, chapter, if status == Completed then Some(now) else None)
    else
      Record(status, chapter,
             if !WasCompleted(existing) && status == Completed then Some(now) else current.value.completedAt)
  }

  /** The marks 25·(lo+1) .. 25·hi, in order. */
  function Milestones(user: UserId, series: SeriesId, lo: nat, hi: nat): seq<Earning>
    decreases hi
  {
    if hi <= lo then []
    else Milestones(user, series, lo, hi - 1)
         + [Earning(user, ChapterRead, Milestone(user, series, hi * CHAPTER_MILESTONE_INTERVAL))]
  }

  /** The INK rewards of one update, in the order they are fired. */
  function Rewards(user: UserId, series: SeriesId, prevChapter: nat, newChapter: nat,
                   isNew: bool, wasCompleted: bool, nowCompleted: bool): seq<Earning>
  {
    (if isNew then [Earning(user, ChapterRead, FirstChapter(user, series))] else [])
    + Milestones(user, series, prevChapter / CHAPTER_MILESTONE_INTERVAL, newChapter / CHAPTER_MILESTONE_INTERVAL)
    + (if nowCompleted && !wasCompleted then [Earning(user, SeriesComplete, Completion(user, series))] else [])
  }

  /** How many multiples of 25 lie above `prev` and not above `next`. */
  function Crossed(prev: nat, next: nat): nat { if next / 25 <= prev / 25 then 0 else next / 25 - prev / 25 }

  /** The rewards for 25·(lo+1), 25·(lo+2) and so on. */
  ghost predicate InOrderMarks(marks: seq<Earning>, user: UserId, series: SeriesId, lo: nat)
  {
    forall i :: 0 <= i < |marks| ==> marks[i] == Earning(user, ChapterRead, Milestone(user, series, 25 * (lo + 1 + i)))
  }

  /** First the new record's reward, then every crossed multiple of 25 in increasing order, then the completion. */
  ghost predicate InOrder(es: seq<Earning>, user: UserId, series: SeriesId, prev: nat, next: nat, isNew: bool,
      completes: bool)
  {
    var n, m := if isNew then 1 else 0, Crossed(prev, next);
    && |es| == n + m + (if completes then 1 else 0)
    && (isNew ==> es[0] == Earning(user, ChapterRead, FirstChapter(user, series)))
    && InOrderMarks(es[n..n + m], user, series, prev / 25)
    && (completes ==> es[n + m] == Earning(user, SeriesComplete, Completion(user, series)))
  }

  lemma {:induction false} MilestonesInOrder(user: UserId, series: SeriesId, lo: nat, hi: nat)
    ensures |Milestones(user, series, lo, hi)| == if hi <= lo then 0 else hi - lo
    ensures InOrderMarks(Milestones(user, series, lo, hi), user, series, lo)
    decreases hi
  {
    if lo < hi {
      MilestonesInOrder(user, series, lo, hi - 1);
    }
  }

  lemma {:induction false} RewardsInOrder(user: UserId, series: SeriesId, prev: nat, next: nat,
                                          isNew: bool, wasCompleted: bool, nowCompleted: bool)
    ensures InOrder(Rewards(user, series, prev, next, isNew, wasCompleted, nowCompleted), user, series, prev, next,
                    isNew, nowCompleted && !wasCompleted)
  {
    MilestonesInOrder(user, series, prev / 25, next / 25);
    var n := if isNew then 1 else 0;
    var marks := Milestones(user, series, prev / 25, next / 25);
    assert Rewards(user, series, prev, next, isNew, wasCompleted, nowCompleted)[n..n + |marks|] == marks;
  }

  /** Pushes the rewards one by one, as `checkAndFireMilestones` does. */
  method BuildRewards(user: UserId, series: SeriesId, prevChapter: nat, newChapter: nat,
                      isNew: bool, wasCompleted: bool, nowCompleted: bool) returns (rewards: seq<Earning>)
    ensures rewards == Rewards(user, series, prevChapter, newChapter, isNew, wasCompleted, nowCompleted)
    ensures InOrder(rewards, user, series, prevChapter, newChapter, isNew, nowCompleted && !wasCompleted)
  {
    rewards := [];
    if isNew {
      rewards := rewards + [Earning(user, ChapterRead, FirstChapter(user, series))];
    }
    ghost var first := rewards;
    var prevMilestone := prevChapter / CHAPTER_MILESTONE_INTERVAL;
    var newMilestone := newChapter / CHAPTER_MILESTONE_INTERVAL;
    var m := prevMilestone + 1;
    while m <= newMilestone
      invariant prevMilestone + 1 <= m
      invariant m <= newMilestone + 1 || m == prevMilestone + 1
      invariant rewards == first + Milestones(user, series, prevMilestone, m - 1)
      decreases newMilestone + 1 - m
    {
      rewards := rewards + [Earning(user, ChapterRead, Milestone(user, series, m * CHAPTER_MILESTONE_INTERVAL))];
      m := m + 1;
    }
    if nowCompleted && !wasCompleted {
      rewards := rewards + [Earning(user, SeriesComplete, Completion(user, series))];
    }
    assert rewards == Rewards(user, series, prevChapter, newChapter, isNew, wasCompleted, nowCompleted);
    RewardsInOrder(user, series, prevChapter, newChapter, isNew, wasCompleted, nowCompleted);
  }

  /** Exactly the crossed marks earn a milestone. */
  lemma {:induction false} MilestonesExact(user: UserId, series: SeriesId, lo: nat, hi: nat)
    ensures forall e :: e in Milestones(user, series, lo, hi) <==>
              exists k: nat :: lo < k <= hi && e == Earning(user, ChapterRead, Milestone(user, series, k * 25))
    decreases hi
  {
    if lo < hi {
      MilestonesExact(user, series, lo, hi - 1);
      var last := Earning(user, ChapterRead, Milestone(user, series, hi * CHAPTER_MILESTONE_INTERVAL));
      forall e
        ensures e in Milestones(user, series, lo, hi) <==>
              exists k: nat :: lo < k <= hi && e == Earning(user, ChapterRead, Milestone(user, series, k * 25))
      {
        assert e in Milestones(user, series, lo, hi) <==> e in Milestones(user, series, lo, hi - 1) || e == last;
      }
    }
  }

  /** The reward keys of a user and series that a largest chapter, a visit and a completion justify. */
  predicate Justifies(k: InkKey, visited: bool, largest: nat, completed: bool)
  {
    match k
    case FirstChapter(_, _) => visited
    case Milestone(_, _, mark) =>
      && visited && mark % 25 == 0
      && 1 <= mark / 25 <= largest / 25
    case Completion(_, _) => completed
    case Approval(_, _) => false
  }

  /** Every reward of an update is for this user and series, carries its key's trigger, and is justified. */
  lemma {:induction false} RewardsJustified(user: UserId, series: SeriesId, prevChapter: nat, newChapter: nat,
                         isNew: bool, wasCompleted: bool, nowCompleted: bool, largest: nat, completed: bool)
    requires newChapter <= largest
    requires nowCompleted && !wasCompleted ==> completed
    ensures forall e :: e in Rewards(user, series, prevChapter, newChapter, isNew, wasCompleted, nowCompleted) ==>
              && Matches(e) && !e.key.Approval? && e.key.user == user && e.key.series == series
              && Justifies(e.key, true, largest, completed)
  {
    var lo, hi := prevChapter / CHAPTER_MILESTONE_INTERVAL, newChapter / CHAPTER_MILESTONE_INTERVAL;
    MilestonesExact(user, series, lo, hi);
    forall e | e in Milestones(user, series, lo, hi)
      ensures Matches(e) && !e.key.Approval? && e.key.user == user && e.key.series == series
      ensures Justifies(e.key, true, largest, completed)
    {
      var k: nat :| lo < k <= hi && e == Earning(user, ChapterRead, Milestone(user, series,
          k * CHAPTER_MILESTONE_INTERVAL));
      assert k * CHAPTER_MILESTONE_INTERVAL % CHAPTER_MILESTONE_INTERVAL == 0;
      assert k * CHAPTER_MILESTONE_INTERVAL / CHAPTER_MILESTONE_INTERVAL == k;
    }
  }
}
