/**
  `upsertRecord` with its milestone check when nothing interleaves: one thread
  of the reward machine that runs alone does the sequential update, and which
  badges it leaves the reader with.
 */
module RecordThreads {
  import opened Wrappers
  import opened Keys
  import opened InkStores
  import opened ReadingRules
  import opened RewardMachine
  import opened RewardServices
  import Reading

  /** What the sequential reading service sees of the machine's state. */
  function WorldOf(s: State): Reading.World
  {
    Reading.World(s.chain, s.mirror, s.records, s.liveSeries, s.lastChapter)
  }

  ghost predicate OnlyBadges(tasks: seq<Task>) { forall i :: 0 <= i < |tasks| ==> tasks[i].BadgeTask? }

  function BadgesIn(tasks: seq<Task>): set<BadgeKey>
  {
    set i | 0 <= i < |tasks| && tasks[i].BadgeTask? :: tasks[i].badge
  }

  /** Every minted badge has its mirror row. */
  ghost predicate BadgesInSync(st: Stores) { BadgeKeys(st.badgeRows) == st.chain.badges }

  // ----- The tasks of a milestone check -----

  lemma {:induction false} OneBadge(st: Stores, b: BadgeKey)
    requires BadgesInSync(st) && b !in BadgeKeys(st.badgeRows)
    ensures var st' := BadgeStores(st, b, Good, true);
            && InkStores.MintBadge(st.chain, b).Some? && BadgesInSync(st')
            && BadgeKeys(st'.badgeRows) == BadgeKeys(st.badgeRows) + {b}
  {
    var rows := st.badgeRows + [BadgeRow(b, st.chain.nextId)];
    assert rows[|st.badgeRows|].key == b;
    assert forall i :: 0 <= i < |st.badgeRows| ==> rows[i] == st.badgeRows[i];
    assert BadgeKeys(rows) == BadgeKeys(st.badgeRows) + {b};
  }

  /** Badge tasks leave the INK alone and, with the mirror in step with the chain, add exactly their badges. */
  lemma {:induction false} BadgeTasksAlone(st: Stores, tasks: seq<Task>)
    requires OnlyBadges(tasks)
    ensures var st' := TaskStores(st, tasks);
            && st'.mirror == st.mirror && st'.subs == st.subs
            && st'.chain.registry == st.chain.registry && st'.chain.earnings == st.chain.earnings
            && (BadgesInSync(st) ==>
                  BadgesInSync(st') && BadgeKeys(st'.badgeRows) == BadgeKeys(st.badgeRows) + BadgesIn(tasks))
    decreases |tasks|
  {
    if tasks != [] {
      var b, rest := tasks[0].badge, tasks[1..];
      assert BadgesIn(tasks) == {b} + BadgesIn(rest) by {
        assert forall i :: 0 < i < |tasks| ==> rest[i - 1] == tasks[i];
      }
      if b in BadgeKeys(st.badgeRows) {
        BadgeTasksAlone(st, rest);
      } else if InkStores.MintBadge(st.chain, b).Some? {
        if BadgesInSync(st) {
          OneBadge(st, b);
        }
        BadgeTasksAlone(BadgeStores(st, b, Good, true), rest);
      }
    }
  }

  function Fired(st: Stores, es: seq<Earning>): Stores
  {
    var f := Reading.Fire(st.chain, st.mirror, es);
    st.(chain := f.chain, mirror := f.mirror)
  }

  lemma {:induction false} MintStores(st: Stores, e: Earning)
    ensures var m := Reading.Mint(st.chain, st.mirror, e);
            && m.chain.badges == st.chain.badges
            && st.mirror.inkEarned.Keys == m.mirror.inkEarned.Keys
            && (e.user in st.mirror.inkEarned ==> !m.result.RolledBack?)
  {
  }

  /** INK tasks first do what the reward loop does; with a passport the badge tasks follow. */
  lemma {:induction false} InkTasksAlone(st: Stores, es: seq<Earning>, badges: seq<Task>)
    requires OnlyBadges(badges)
    ensures var st', f := TaskStores(st, InkTasks(es) + badges), Fired(st, es);
            && st'.mirror == f.mirror && st'.subs == st.subs
            && st'.chain.registry == f.chain.registry && st'.chain.earnings == f.chain.earnings
            && f.chain.badges == st.chain.badges
            && ((forall e :: e in es ==> e.user in st.mirror.inkEarned) ==> st' == TaskStores(f, badges))
    decreases |es|
  {
    var tasks := InkTasks(es) + badges;
    if es == [] {
      assert tasks == badges;
      BadgeTasksAlone(st, badges);
    } else {
      assert tasks[0] == InkTask(es[0]) && tasks[1..] == InkTasks(es[1..]) + badges;
      var m := Reading.Mint(st.chain, st.mirror, es[0]);
      MintStores(st, es[0]);
      if !m.result.RolledBack? {
        InkTasksAlone(st.(chain := m.chain, mirror := m.mirror), es[1..], badges);
      } else {
        assert es[0] in es;
      }
    }
  }

  // ----- One update -----

  /** The badges of an update: SERIES_COMPLETIONIST if it completes the series, FIRST_CHAPTER if the record is new. */
  function Awards(slot: Slot, isNew: bool, completes: bool): set<BadgeKey>
  {
    (if isNew then {BadgeKey(slot.user, 0, 0)} else {}) + (if completes then {BadgeKey(slot.user, 0, 2)} else {})
  }

  /** The tasks an update leaves: its rewards, and then exactly the badges it awards. */
  lemma {:induction false} TasksExactly(slot: Slot, existing: Option<Record>, newStatus: Status, newChapter: nat)
    returns (badges: seq<Task>)
    ensures var es := Rewards(slot.user, slot.series, PrevChapter(existing), newChapter, existing.None?,
                              WasCompleted(existing), newStatus == Completed);
            TasksAfter(slot, existing, newStatus, newChapter) == InkTasks(es) + badges
    ensures OnlyBadges(badges)
    ensures BadgesIn(badges)
            == Awards(slot, existing.None?,
                      newStatus == Status.Completed && !(existing.Some? && existing.value.status == Status.Completed))
  {
    var earned := newStatus == Completed && !WasCompleted(existing);
    var first := if earned then [BadgeTask(BadgeKey(slot.user, READING_ACHIEVEMENT, SERIES_COMPLETIONIST))] else [];
    var second := if existing.None? then [BadgeTask(BadgeKey(slot.user, READING_ACHIEVEMENT, FIRST_CHAPTER))] else [];
    badges := first + second;
    assert BadgesIn(badges) == Awards(slot, existing.None?, earned) by {
      assert earned ==> badges[0] == first[0];
      assert existing.None? ==> badges[|first|] == second[0];
    }
  }

  /** The state at the record write of a thread that has read the state it is in. */
  function AtWrite(s: State, t: ThreadId, slot: Slot, status: Status, chapter: nat): State
    requires t in s.threads
  {
    var existing := Lookup(s.records, slot);
    var newChapter := ReadingRules.Max(PrevChapter(existing), chapter);
    var last := Lookup(s.lastChapter, slot.series);
    var earns := status == Completed && !WasCompleted(existing) && ReachedEnd(newChapter, last);
    Goto(if earns then s.(earned := s.earned + {slot}) else s, t,
         RecordWrite(slot, DecideStatus(status, existing, newChapter, last), newChapter, existing))
  }

  lemma {:induction false} SeriesStep(s: State, t: ThreadId, slot: Slot, status: Status, requested: int)
    requires t in s.threads && s.threads[t].pc == RecordSeries(slot, status, requested)
    ensures Apply(s, Step(t, Good))
            == if slot.series !in s.liveSeries || requested < 0 then End(s, t)
               else Goto(s, t, RecordFind(slot, status, requested))
  {
  }

  lemma {:induction false} FindStep(s: State, t: ThreadId, slot: Slot, status: Status, chapter: nat)
    requires t in s.threads && s.threads[t].pc == RecordFind(slot, status, chapter)
    ensures Apply(s, Step(t, Good)) == Goto(s, t, RecordLast(slot, status, chapter, Lookup(s.records, slot)))
  {
  }

  lemma {:induction false} LastStep(s: State, t: ThreadId, slot: Slot, status: Status, chapter: nat)
    requires t in s.threads && s.threads[t].pc == RecordLast(slot, status, chapter, Lookup(s.records, slot))
    ensures Apply(s, Step(t, Good)) == AtWrite(s, t, slot, status, chapter)
  {
  }

  lemma {:induction false} WriteStep(s: State, t: ThreadId, slot: Slot, newStatus: Status, newChapter: nat)
    requires t in s.threads && s.threads[t].pc == RecordWrite(slot, newStatus, newChapter, Lookup(s.records, slot))
    ensures var existing := Lookup(s.records, slot);
            var row := UpsertRecord(existing, existing, newStatus, newChapter, s.now);
            Apply(s, Step(t, Good))
            == s.(records := s.records[slot := row],
                  threads := s.threads[t := Thread(RecordTrack(slot, existing.None?),
                                                   TasksAfter(slot, existing, newStatus, newChapter))])
  {
  }

  lemma {:induction false} TrackStep(s: State, t: ThreadId, slot: Slot, isNew: bool)
    requires t in s.threads && s.threads[t].pc == RecordTrack(slot, isNew)
    ensures Apply(s, Step(t, Good))
            == if isNew && slot.user !in s.mirror.inkEarned then End(s, t) else AtTasks(s, t, s.threads[t].rest)
  {
  }

  /** From the tracking step on: the stores are those of the tasks, unless the passport is missing. */
  lemma {:induction false} TrackAlone(s: State, t: ThreadId, slot: Slot, isNew: bool, tasks: seq<Task>)
    returns (run: seq<State>)
    requires t in s.threads && s.threads[t] == Thread(RecordTrack(slot, isNew), tasks)
    ensures SoloRun(s, t, run) && Final(run).records == s.records
    ensures StoresOf(Final(run))
            == if isNew && slot.user !in s.mirror.inkEarned then StoresOf(s) else TaskStores(StoresOf(s), tasks)
  {
    TrackStep(s, t, slot, isNew);
    var s1: State;
    if isNew && slot.user !in s.mirror.inkEarned {
      s1 := End(s, t);
      run := [s1];
    } else {
      s1 := AtTasks(s, t, tasks);
      run := TasksAlone(s, t, tasks);
    }
    Prepend(s, t, s1, run);
    run := [s] + run;
  }

  /** The record row and the stores once the update that decided on this status and chapter has ended. */
  ghost predicate Updated(s: State, f: State, slot: Slot, newStatus: Status, newChapter: nat)
  {
    var existing := Lookup(s.records, slot);
    && f.records == s.records[slot := UpsertRecord(existing, existing, newStatus, newChapter, s.now)]
    && StoresOf(f)
       == if existing.None? && slot.user !in s.mirror.inkEarned then StoresOf(s)
          else TaskStores(StoresOf(s), TasksAfter(slot, existing, newStatus, newChapter))
  }

  /** The same, for what the request asked for. */
  ghost predicate UpdatedFor(s: State, f: State, slot: Slot, status: Status, chapter: nat)
  {
    var newChapter := ReadingRules.Max(PrevChapter(Lookup(s.records, slot)), chapter);
    Updated(s, f, slot,
            DecideStatus(status, Lookup(s.records, slot), newChapter, Lookup(s.lastChapter, slot.series)), newChapter)
  }

  lemma {:induction false} WriteAlone(s: State, t: ThreadId, slot: Slot, newStatus: Status, newChapter: nat)
    returns (run: seq<State>)
    requires t in s.threads
    requires s.threads[t] == Thread(RecordWrite(slot, newStatus, newChapter, Lookup(s.records, slot)), [])
    ensures SoloRun(s, t, run) && Updated(s, Final(run), slot, newStatus, newChapter)
  {
    WriteStep(s, t, slot, newStatus, newChapter);
    var s1 := Apply(s, Step(t, Good));
    var existing := Lookup(s.records, slot);
    run := TrackAlone(s1, t, slot, existing.None?, TasksAfter(slot, existing, newStatus, newChapter));
    Prepend(s, t, s1, run);
    run := [s] + run;
  }

  lemma {:induction false} LastAlone(s: State, t: ThreadId, slot: Slot, status: Status, chapter: nat)
    returns (run: seq<State>)
    requires t in s.threads
    requires s.threads[t] == Thread(RecordLast(slot, status, chapter, Lookup(s.records, slot)), [])
    ensures SoloRun(s, t, run) && UpdatedFor(s, Final(run), slot, status, chapter)
  {
    LastStep(s, t, slot, status, chapter);
    var s1 := AtWrite(s, t, slot, status, chapter);
    run := WriteAlone(s1, t, slot, s1.threads[t].pc.newStatus, s1.threads[t].pc.newChapter);
    Prepend(s, t, s1, run);
    run := [s] + run;
  }

  /** The reads, then the rest. */
  lemma {:induction false} ReadsAlone(s: State, t: ThreadId, slot: Slot, status: Status, requested: nat)
    returns (run: seq<State>)
    requires t in s.threads && s.threads[t] == Thread(RecordSeries(slot, status, requested), [])
    requires slot.series in s.liveSeries
    ensures SoloRun(s, t, run) && UpdatedFor(s, Final(run), slot, status, requested)
  {
    SeriesStep(s, t, slot, status, requested);
    var s1 := Goto(s, t, RecordFind(slot, status, requested));
    FindStep(s1, t, slot, status, requested);
    var s2 := Goto(s1, t, RecordLast(slot, status, requested, Lookup(s.records, slot)));
    run := LastAlone(s2, t, slot, status, requested);
    Prepend(s1, t, s2, run);
    Prepend(s, t, s1, [s1] + run);
    run := [s] + ([s1] + run);
  }

  predicate IsCompleted(records: map<Slot, Record>, slot: Slot)
  {
    slot in records && records[slot].status == Status.Completed
  }

  /** The stores of the sequential update. */
  ghost predicate SameUpdate(f: State, s: State, w: Reading.World)
  {
    && f.records == w.records && f.mirror == w.mirror && f.subs == s.subs
    && f.chain.registry == w.chain.registry && f.chain.earnings == w.chain.earnings
  }

  /** A reader with a passport and a badge mirror in step gets exactly the badges of this update. */
  ghost predicate BadgesAwarded(s: State, f: State, slot: Slot, accepted: bool)
  {
    slot.user in s.mirror.inkEarned && BadgesInSync(StoresOf(s)) ==>
      BadgeKeys(f.badgeRows)
      == if accepted
         then BadgeKeys(s.badgeRows)
              + Awards(slot, slot !in s.records, IsCompleted(f.records, slot) && !IsCompleted(s.records, slot))
         else BadgeKeys(s.badgeRows)
  }

  lemma {:induction false} UpdateStores(st: Stores, slot: Slot, existing: Option<Record>, newStatus: Status,
      newChapter: nat)
    ensures var es := Rewards(slot.user, slot.series, PrevChapter(existing), newChapter, existing.None?,
                              WasCompleted(existing), newStatus == Completed);
            var st', f := TaskStores(st, TasksAfter(slot, existing, newStatus, newChapter)), Fired(st, es);
            && st'.mirror == f.mirror && st'.subs == st.subs
            && st'.chain.registry == f.chain.registry && st'.chain.earnings == f.chain.earnings
            && (slot.user in st.mirror.inkEarned && BadgesInSync(st) ==>
                  BadgeKeys(st'.badgeRows)
                  == BadgeKeys(st.badgeRows)
                     + Awards(slot, existing.None?,
                              newStatus == Status.Completed
                              && !(existing.Some? && existing.value.status == Status.Completed)))
  {
    var es := Rewards(slot.user, slot.series, PrevChapter(existing), newChapter, existing.None?,
                      WasCompleted(existing), newStatus == Completed);
    var badges := TasksExactly(slot, existing, newStatus, newChapter);
    InkTasksAlone(st, es, badges);
    RewardsForUser(slot, existing, newStatus, newChapter);
    BadgeTasksAlone(Fired(st, es), badges);
  }

  lemma {:induction false} RewardsForUser(slot: Slot, existing: Option<Record>, newStatus: Status, newChapter: nat)
    ensures var es := Rewards(slot.user, slot.series, PrevChapter(existing), newChapter, existing.None?,
                              WasCompleted(existing), newStatus == Completed);
            forall e :: e in es ==> e.user == slot.user
  {
    RewardsJustified(slot.user, slot.series, PrevChapter(existing), newChapter, existing.None?,
                     WasCompleted(existing), newStatus == Completed, newChapter, true);
  }

  /** `upsertRecord` alone is the sequential update, in any state of the machine, and awards exactly its badges. */
  lemma {:induction false} RecordAlone(s: State, t: ThreadId, slot: Slot, status: Status, requested: int)
    returns (run: seq<State>)
    requires t in s.threads && s.threads[t] == Thread(RecordSeries(slot, status, requested), [])
    ensures SoloRun(s, t, run)
    ensures SameUpdate(Final(run), s, Reading.Apply(WorldOf(s), Reading.Upsert(slot, status, requested, s.now)))
    ensures BadgesAwarded(s, Final(run), slot, slot.series in s.liveSeries && requested >= 0)
  {
    if slot.series !in s.liveSeries || requested < 0 {
      SeriesStep(s, t, slot, status, requested);
      var s1 := End(s, t);
      run := [s1];
      Prepend(s, t, s1, run);
      run := [s] + run;
    } else {
      run := ReadsAlone(s, t, slot, status, requested);
      var existing := Lookup(s.records, slot);
      var newChapter := ReadingRules.Max(PrevChapter(existing), requested);
      var newStatus := DecideStatus(status, existing, newChapter, Lookup(s.lastChapter, slot.series));
      UpdateStores(StoresOf(s), slot, existing, newStatus, newChapter);
    }
  }
}
