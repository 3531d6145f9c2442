/** Votes under interleaving: a decided submission's votes can still change. */
module VoteRaces {
  import opened Wrappers
  import opened Fresh
  import opened Keys
  import opened InkStores
  import opened ReadingRules
  import opened Tally
  import opened RewardMachine
  import opened RewardInvariant
  import opened RewardSteps
  import opened RewardFrames
  import opened RewardEffects
  import opened VerdictRaces

  predicate Decided(s: State, x: SubmissionId) { x in s.subs && s.subs[x].status != Pending }

  /** The stored votes change only in the upsert of a vote past its checks, and then exactly if the row is a new one. */
  lemma {:induction false} VotesChangeOnlyByUpsert(s: State, a: Action, x: SubmissionId)
    requires x in s.subs
    ensures x in Apply(s, a).subs && (Decided(s, x) ==> Decided(Apply(s, a), x))
    ensures Apply(s, a).subs[x].votes != s.subs[x].votes
            <==> && a.Step? && a.outcome == Good && a.t in s.threads
                 && s.threads[a.t].pc.VoteUpsert? && s.threads[a.t].pc.sub == x
                 && UpsertVote(s.subs[x].votes, s.threads[a.t].pc.row) != s.subs[x].votes
  {
    if a.Step? && a.t in s.threads {
      StepFrame(s, a.t, a.outcome);
      var pc := s.threads[a.t].pc;
      if pc.VoteUpsert? && a.outcome == Good && pc.sub == x {
        UpsertStep(s, a.t, x, pc.row);
      }
    }
  }

  lemma {:induction false} UpsertStep(s: State, t: ThreadId, x: SubmissionId, row: VoteRow)
    requires t in s.threads && s.threads[t].pc == VoteUpsert(x, row) && x in s.subs
    ensures Apply(s, Step(t, Good))
            == Goto(s.(subs := s.subs[x := s.subs[x].(votes := UpsertVote(s.subs[x].votes, row))]), t, VoteRecount(x))
  {
  }

  /** Past the status check, with a row that is not the stored one yet. */
  predicate VotePast(s: State, t: ThreadId, x: SubmissionId)
    requires x in s.subs
  {
    && t in s.threads
    && var pc := s.threads[t].pc;
       || (pc.VoteBalance? && pc.sub == x)
       || (pc.VoteUpsert? && pc.sub == x && UpsertVote(s.subs[x].votes, pc.row) != s.subs[x].votes)
  }

  ghost predicate VotePossible(s: State, x: SubmissionId)
    requires x in s.subs
  {
    exists t :: VotePast(s, t, x)
  }

  ghost predicate VotesForGood(s: State, x: SubmissionId)
    requires x in s.subs
  {
    forall actions :: x in RunFrom(s, actions).subs && RunFrom(s, actions).subs[x].votes == s.subs[x].votes
  }

  lemma {:induction false} VotesStay(s: State, a: Action, x: SubmissionId)
    requires Decided(s, x) && !VotePossible(s, x)
    ensures var s' := Apply(s, a);
            Decided(s', x) && s'.subs[x].votes == s.subs[x].votes && !VotePossible(s', x)
  {
    VotesChangeOnlyByUpsert(s, a, x);
    var s' := Apply(s, a);
    if a.Step? && a.t in s.threads {
      assert !VotePast(s, a.t, x);
      StepEffect(s, a.t, a.outcome);
    }
    forall t: ThreadId ensures !VotePast(s', t, x) {
      assert !VotePast(s, t, x);
    }
  }

  lemma {:induction false} VotesKept(s: State, x: SubmissionId, actions: seq<Action>)
    requires Decided(s, x) && !VotePossible(s, x)
    ensures var s' := RunFrom(s, actions);
            Decided(s', x) && s'.subs[x].votes == s.subs[x].votes && !VotePossible(s', x)
    decreases |actions|
  {
    if actions != [] {
      var n := |actions| - 1;
      VotesKept(s, x, actions[..n]);
      VotesStay(RunFrom(s, actions[..n]), actions[n], x);
    }
  }

  // ----- A voter can always earn more INK -----

  /** `s1` is `s` with one more thread, the same submissions and keys, and this balance for the voter. */
  ghost predicate Aside(s: State, s1: State, t: ThreadId, pc: Pc, voter: UserId, balance: nat)
  {
    && t in s1.threads && s1.threads[t].pc == pc && s1.subs == s.subs
    && (forall u :: u in s.threads ==> u in s1.threads && s1.threads[u] == s.threads[u])
    && voter in s1.mirror.inkEarned && BalanceOf(s1.mirror, voter) == balance
  }

  function FirstRead(slot: Slot): Earning { Earning(slot.user, ChapterRead, FirstChapter(slot.user, slot.series)) }

  ghost predicate Unread(s: State, slot: Slot)
  {
    && slot.series in s.liveSeries && slot !in s.records
    && FirstChapter(slot.user, slot.series) !in s.chain.registry && FirstChapter(slot.user,
        slot.series) !in s.mirror.ledger
  }

  lemma {:induction false} ReadFind(s: State, s1: State, t: ThreadId, slot: Slot, b: nat)
    requires t !in s.threads && Aside(s, s1, t, RecordFind(slot, Reading, 0), slot.user, b) && Unread(s1, slot)
    ensures var s2 := Apply(s1, Step(t, Good));
            Aside(s, s2, t, RecordLast(slot, Reading, 0, None), slot.user, b) && Unread(s2, slot)
  {
    assert Apply(s1, Step(t, Good)) == Goto(s1, t, RecordLast(slot, Reading, 0, None));
  }

  lemma {:induction false} ReadLast(s: State, s1: State, t: ThreadId, slot: Slot, b: nat)
    requires t !in s.threads && Aside(s, s1, t, RecordLast(slot, Reading, 0, None), slot.user, b) && Unread(s1, slot)
    ensures var s2 := Apply(s1, Step(t, Good));
            Aside(s, s2, t, RecordWrite(slot, Reading, 0, None), slot.user, b) && Unread(s2, slot)
  {
    assert Apply(s1, Step(t, Good)) == Goto(s1, t, RecordWrite(slot, Reading, 0, None));
  }

  ghost predicate Unminted(s: State, slot: Slot)
  {
    FirstChapter(slot.user, slot.series) !in s.chain.registry && FirstChapter(slot.user,
        slot.series) !in s.mirror.ledger
  }

  lemma {:induction false} ReadWrite(s: State, s1: State, t: ThreadId, slot: Slot, b: nat)
    requires t !in s.threads && Aside(s, s1, t, RecordWrite(slot, Reading, 0, None), slot.user, b) && Unread(s1, slot)
    ensures var s2 := Apply(s1, Step(t, Good));
            && Aside(s, s2, t, RecordTrack(slot, true), slot.user, b) && Unminted(s2, slot)
            && s2.threads[t].rest != [] && s2.threads[t].rest[0] == InkTask(FirstRead(slot))
  {
    var row := UpsertRecord(None, None, Reading, 0, s1.now);
    var th := Thread(RecordTrack(slot, true), TasksAfter(slot, None, Reading, 0));
    assert Apply(s1, Step(t, Good)) == s1.(records := s1.records[slot := row], threads := s1.threads[t := th]);
  }

  lemma {:induction false} ReadTrack(s: State, s1: State, t: ThreadId, slot: Slot, b: nat)
    requires t !in s.threads && Aside(s, s1, t, RecordTrack(slot, true), slot.user, b) && Unminted(s1, slot)
    requires s1.threads[t].rest != [] && s1.threads[t].rest[0] == InkTask(FirstRead(slot))
    ensures var s2 := Apply(s1, Step(t, Good));
            Aside(s, s2, t, MintCheck(FirstRead(slot)), slot.user, b) && Unminted(s2, slot)
  {
    assert Apply(s1, Step(t, Good)) == Advance(s1, t);
  }

  lemma {:induction false} ReadMintCheck(s: State, s1: State, t: ThreadId, slot: Slot, b: nat)
    requires t !in s.threads && Aside(s, s1, t, MintCheck(FirstRead(slot)), slot.user, b) && Unminted(s1, slot)
    ensures var s2 := Apply(s1, Step(t, Good));
            Aside(s, s2, t, MintCall(FirstRead(slot)), slot.user, b) && Unminted(s2, slot)
  {
    assert Apply(s1, Step(t, Good)) == Goto(s1, t, MintCall(FirstRead(slot)));
  }

  lemma {:induction false} ReadMintCall(s: State, s1: State, t: ThreadId, slot: Slot, b: nat)
    requires t !in s.threads && Aside(s, s1, t, MintCall(FirstRead(slot)), slot.user, b) && Unminted(s1, slot)
    ensures var s2 := Apply(s1, Step(t, Good));
            Aside(s, s2, t, MintWrite(FirstRead(slot), s1.chain.nextId), slot.user, b)
  {
    var next := MintWrite(FirstRead(slot), s1.chain.nextId);
    assert Apply(s1, Step(t, Good)) == AcceptKey(s1, t, FirstRead(slot), next);
  }

  /** What is left when the thread's write is done: ten INK more. */
  lemma {:induction false} ReadMintWrite(s: State, s1: State, t: ThreadId, slot: Slot, digest: Digest, b: nat)
    requires t !in s.threads && Aside(s, s1, t, MintWrite(FirstRead(slot), digest), slot.user, b)
    ensures var s2 := Apply(s1, Step(t, Good));
            && s2.subs == s.subs && BalanceOf(s2.mirror, slot.user) == b + 10
            && forall u :: u in s.threads ==> u in s2.threads && s2.threads[u] == s.threads[u]
  {
    MintWriteStep(s1, t, FirstRead(slot), digest);
    var s2 := RecordKey(s1, t, FirstRead(slot), digest);
    assert s2.subs == s.subs && BalanceOf(s2.mirror, slot.user) == b + 10;
    AdvanceAside(s2, t);
  }

  lemma {:induction false} MintWriteStep(s: State, t: ThreadId, e: Earning, digest: Digest)
    requires t in s.threads && s.threads[t].pc == MintWrite(e, digest) && e.user in s.mirror.inkEarned
    ensures Apply(s, Step(t, Good)) == Advance(RecordKey(s, t, e, digest), t)
  {
  }

  lemma {:induction false} AdvanceAside(s: State, t: ThreadId)
    requires t in s.threads
    ensures var s' := Advance(s, t); s'.subs == s.subs && s'.mirror == s.mirror && s'.threads - {t} == s.threads - {t}
    ensures forall u :: u in s.threads && u != t ==>
              u in Advance(s, t).threads && Advance(s, t).threads[u] == s.threads[u]
  {
  }

  ghost predicate Richer(s: State, s1: State, voter: UserId)
  {
    && s1.subs == s.subs && BalanceOf(s1.mirror, voter) == BalanceOf(s.mirror, voter) + 10
    && forall u :: u in s.threads ==> u in s1.threads && s1.threads[u] == s.threads[u]
  }

  lemma {:induction false} StepOn(s: State, actions: seq<Action>, t: ThreadId)
    ensures RunFrom(s, actions + [Step(t, Good)]) == Apply(RunFrom(s, actions), Step(t, Good))
  {
  }

  function WithSeries(s: State, z: SeriesId): State { s.(liveSeries := s.liveSeries + {z}) }

  /** The state with the series open and a reader about to start. */
  function WithReader(s: State, t: ThreadId, slot: Slot): State
  {
    s.(threads := s.threads[t := Thread(RecordSeries(slot, Reading, 0), [])],
       submitted := NoteSubmitted(s.submitted, UpsertRequest(slot, Reading, 0)))
  }

  lemma {:induction false} PassportKeeps(s: State, u: UserId)
    ensures var s1 := WithPassport(s, u);
            && u in s1.mirror.inkEarned && s1.mirror.ledger == s.mirror.ledger && s1.mirror.balances
                == s.mirror.balances
            && s1.threads == s.threads && s1.subs == s.subs && s1.records == s.records && s1.chain == s.chain
  {
    if u !in s.mirror.inkEarned {
      var m := Mirror(s.mirror.ledger, s.mirror.balances, s.mirror.inkEarned[u := 0]);
      assert WithPassport(s, u).mirror == m;
    }
  }

  lemma {:induction false} ReaderReady(s: State, t: ThreadId, slot: Slot)
    requires t !in s.threads && slot !in s.records && Unminted(s, slot)
    ensures var s1 := WithReader(WithSeries(WithPassport(s, slot.user), slot.series), t, slot);
            && Aside(s, s1, t, RecordSeries(slot, Reading, 0), slot.user, BalanceOf(s.mirror, slot.user))
                && Unread(s1, slot)
  {
    PassportKeeps(s, slot.user);
  }

  lemma {:induction false} StartReading(s: State, t: ThreadId, slot: Slot) returns (actions: seq<Action>)
    requires t !in s.threads && slot !in s.records && Unminted(s, slot)
    ensures var s1 := RunFrom(s, actions);
            && Aside(s, s1, t, RecordSeries(slot, Reading, 0), slot.user, BalanceOf(s.mirror, slot.user))
                && Unread(s1, slot)
  {
    var s1 := WithPassport(s, slot.user);
    var s2 := WithSeries(s1, slot.series);
    ReaderReady(s, t, slot);
    actions := ThreeActions(s, NewPassport(slot.user), SetSeries(slot.series, true),
                            Spawn(t, UpsertRequest(slot, Reading, 0)), s1, s2);
  }

  lemma {:induction false} ThreeActions(s: State, a: Action, b: Action, c: Action, s1: State, s2: State)
    returns (actions: seq<Action>)
    requires Apply(s, a) == s1 && Apply(s1, b) == s2
    ensures RunFrom(s, actions) == Apply(s2, c)
  {
    RunFromOne(s, a);
    actions := [a] + [b] + [c];
  }

  /** Reading a series nobody opened yet earns the voter ten INK, whatever else is going on. */
  lemma {:induction false} EarnMore(s: State, voter: UserId) returns (actions: seq<Action>)
    requires Inv(s)
    ensures Richer(s, RunFrom(s, actions), voter)
  {
    var z := FreshString(set slot | slot in s.submitted :: slot.series);
    var t := AboveAll(s.threads.Keys);
    var slot := Slot(voter, z);
    assert slot !in s.submitted && t !in s.threads;
    var b := BalanceOf(s.mirror, voter);
    var r0 := StartReading(s, t, slot);
    var r2 := ReadIn(s, t, slot, b, r0);
    actions := MintIn(s, t, slot, b, r2);
  }

  lemma {:induction false} ReadIn(s: State, t: ThreadId, slot: Slot, b: nat, r: seq<Action>)
    returns (actions: seq<Action>)
    requires t !in s.threads && Aside(s, RunFrom(s, r), t, RecordSeries(slot, Reading, 0), slot.user, b)
    requires Unread(RunFrom(s, r), slot)
    ensures var s1 := RunFrom(s, actions);
            Aside(s, s1, t, MintCheck(FirstRead(slot)), slot.user, b) && Unminted(s1, slot)
  {
    var next := [Step(t, Good)];
    StepOn(s, r, t);
    StepOn(s, r + next, t);
    ReadFind(s, RunFrom(s, r + next), t, slot, b);
    StepOn(s, r + next + next, t);
    ReadLast(s, RunFrom(s, r + next + next), t, slot, b);
    var r3 := r + next + next + next;
    StepOn(s, r3, t);
    ReadWrite(s, RunFrom(s, r3), t, slot, b);
    StepOn(s, r3 + next, t);
    ReadTrack(s, RunFrom(s, r3 + next), t, slot, b);
    actions := r3 + next + next;
  }

  lemma {:induction false} MintIn(s: State, t: ThreadId, slot: Slot, b: nat, r: seq<Action>)
    returns (actions: seq<Action>)
    requires t !in s.threads && Aside(s, RunFrom(s, r), t, MintCheck(FirstRead(slot)), slot.user, b)
    requires Unminted(RunFrom(s, r), slot) && b == BalanceOf(s.mirror, slot.user)
    ensures Richer(s, RunFrom(s, actions), slot.user)
  {
    var next := [Step(t, Good)];
    StepOn(s, r, t);
    ReadMintCheck(s, RunFrom(s, r), t, slot, b);
    StepOn(s, r + next, t);
    ReadMintCall(s, RunFrom(s, r + next), t, slot, b);
    var digest := RunFrom(s, r + next).chain.nextId;
    StepOn(s, r + next + next, t);
    ReadMintWrite(s, RunFrom(s, r + next + next), t, slot, digest, b);
    actions := r + next + next + next;
  }

  // ----- When the votes stay for good -----

  lemma {:induction false} BalanceStep(s: State, t: ThreadId, x: SubmissionId, voter: UserId, vote: int)
    requires t in s.threads && s.threads[t].pc == VoteBalance(x, voter, vote)
        && BalanceOf(s.mirror, voter) >= MIN_INK_TO_VOTE
    ensures Apply(s, Step(t, Good)) == Goto(s, t, VoteUpsert(x, VoteRow(voter, vote, BalanceOf(s.mirror, voter))))
  {
  }

  /** A vote that waits for its balance stores a row that was not there, once the voter has earned more. */
  lemma {:induction false} WaitingVoteChanges(s: State, t: ThreadId, x: SubmissionId) returns (actions: seq<Action>)
    requires Inv(s) && x in s.subs && t in s.threads && s.threads[t].pc.VoteBalance? && s.threads[t].pc.sub == x
    ensures x in RunFrom(s, actions).subs && RunFrom(s, actions).subs[x].votes != s.subs[x].votes
  {
    var pc := s.threads[t].pc;
    var votes := s.subs[x].votes;
    var r := EarnMore(s, pc.voter);
    var s1 := RunFrom(s, r);
    BalanceStep(s1, t, x, pc.voter, pc.vote);
    var row := VoteRow(pc.voter, pc.vote, BalanceOf(s1.mirror, pc.voter));
    var s2 := Goto(s1, t, VoteUpsert(x, row));
    UpsertStep(s2, t, x, row);
    assert SubOk(s.mirror, x, s.subs[x]);
    assert row !in votes && row in UpsertVote(votes, row);
    StepOn(s, r, t);
    StepOn(s, r + [Step(t, Good)], t);
    actions := r + [Step(t, Good)] + [Step(t, Good)];
  }

  /**
    The votes of a decided submission are kept by every continuation if and only
    if no vote is past its status check with a row still to store.
   */
  lemma {:induction false} VotesForGoodExactly(s: State, x: SubmissionId)
    requires Inv(s) && Decided(s, x)
    ensures VotesForGood(s, x) <==> !VotePossible(s, x)
  {
    if VotePossible(s, x) {
      var t :| VotePast(s, t, x);
      var actions: seq<Action>;
      if s.threads[t].pc.VoteUpsert? {
        RunFromOne(s, Step(t, Good));
        VotesChangeOnlyByUpsert(s, Step(t, Good), x);
        actions := [Step(t, Good)];
      } else {
        actions := WaitingVoteChanges(s, t, x);
      }
      assert RunFrom(s, actions).subs[x].votes != s.subs[x].votes;
    } else {
      forall actions ensures x in RunFrom(s, actions).subs && RunFrom(s, actions).subs[x].votes == s.subs[x].votes {
        VotesKept(s, x, actions);
      }
    }
  }
}
