/**
  Which badges can come to be minted, over whole runs: every badge on chain
  was earned, whatever failed or interleaved.
 */
module BadgeHistory {
  import opened Wrappers
  import opened Keys
  import opened InkStores
  import opened ReadingRules
  import opened Tally
  import opened RewardMachine
  import opened RewardInvariant
  import opened RewardSteps
  import opened RewardEffects
  import opened RewardFrames
  import opened RewardTheorems
  import opened RecordThreads

  /** The badges a thread may still mint for a reading update. */
  function PcBadge(pc: Pc): set<BadgeKey>
  {
    match pc
    case BadgeCheck(b) => {b}
    case BadgeCall(b) => {b}
    case _ => {}
  }

  function Todo(th: Thread): set<BadgeKey> { PcBadge(th.pc) + BadgesIn(th.rest) }

  /** What a thread at its record write will want to award. */
  function Wanted(pc: Pc): set<BadgeKey>
  {
    match pc
    case RecordWrite(slot, newStatus, _, existing) =>
      Awards(slot, existing.None?, newStatus == Status.Completed && !WasCompleted(existing))
    case _ => {}
  }

  /** Badges reach the to-do list of a thread from its own record write only. */
  ghost predicate TodoEffect(s: State, t: ThreadId, s': State)
    requires t in s.threads
  {
    t in s'.threads ==> Todo(s'.threads[t]) <= Todo(s.threads[t]) + Wanted(s.threads[t].pc)
  }

  /** A new badge on chain is the one the thread was calling for, or the contributor badge of its approval. */
  ghost predicate MintSource(s: State, t: ThreadId, s': State)
    requires t in s.threads
  {
    var pc := s.threads[t].pc;
    forall b :: b in s'.chain.badges ==>
      || b in s.chain.badges || pc == BadgeCall(b)
      || (pc.ApproveCall? && b == BadgeKey(pc.submitter, 4, 0) && Approval(pc.submitter, pc.sub) in s'.chain.registry)
  }

  lemma {:induction false} EndTodo(s: State, s1: State, t: ThreadId)
    requires t in s.threads && t in s1.threads
    ensures TodoEffect(s, t, End(s1, t))
  {
  }

  lemma {:induction false} GotoTodo(s: State, s1: State, t: ThreadId, pc: Pc)
    requires t in s.threads && t in s1.threads && s1.threads[t].rest == s.threads[t].rest
    requires PcBadge(pc) <= PcBadge(s.threads[t].pc)
    ensures TodoEffect(s, t, Goto(s1, t, pc))
  {
  }

  lemma {:induction false} AdvanceTodo(s: State, s1: State, t: ThreadId)
    requires t in s.threads && t in s1.threads && s1.threads[t].rest == s.threads[t].rest
    ensures TodoEffect(s, t, Advance(s1, t))
  {
    var rest := s1.threads[t].rest;
    if rest != [] {
      assert forall i :: 0 <= i < |rest[1..]| ==> rest[1..][i] == rest[i + 1];
      assert rest[0].BadgeTask? ==> rest[0].badge in BadgesIn(rest);
      assert BadgesIn(rest[1..]) <= BadgesIn(rest);
    }
  }

  lemma {:induction false} MintCallTodo(s: State, t: ThreadId, e: Earning, o: Outcome)
    requires t in s.threads && s.threads[t].pc == MintCall(e)
    ensures var s' := StepMintCall(s, t, e, o); TodoEffect(s, t, s') && s'.chain.badges == s.chain.badges
  {
    if o == Fails || Earn(s.chain, e).None? {
      EndTodo(s, s, t);
      AdvanceTodo(s, s, t);
    } else {
      var s1 := AcceptKey(s, t, e, MintWrite(e, s.chain.nextId));
      GotoTodo(s, s.(chain := s1.chain, fate := s1.fate), t, MintWrite(e, s.chain.nextId));
      EndTodo(s, s1, t);
    }
  }

  lemma {:induction false} MintWriteTodo(s: State, t: ThreadId, e: Earning, digest: Digest)
    requires t in s.threads && s.threads[t].pc == MintWrite(e, digest)
    ensures var s' := StepMintWrite(s, t, e, digest); TodoEffect(s, t, s') && s'.chain == s.chain
  {
    if Credit(s.mirror, e, digest).None? {
      EndTodo(s, s, t);
    } else {
      AdvanceTodo(s, RecordKey(s, t, e, digest), t);
    }
  }

  lemma {:induction false} MintTodo(s: State, t: ThreadId, o: Outcome)
    requires t in s.threads
    requires var pc := s.threads[t].pc; pc.MintCheck? || pc.MintCall? || pc.MintWrite?
    ensures var s' := StepMint(s, t, o); TodoEffect(s, t, s') && s'.chain.badges == s.chain.badges
  {
    EndTodo(s, s, t);
    match s.threads[t].pc
    case MintCheck(e) =>
      AdvanceTodo(s, s, t);
      GotoTodo(s, s, t, MintCall(e));
    case MintCall(e) => MintCallTodo(s, t, e, o);
    case MintWrite(e, digest) => MintWriteTodo(s, t, e, digest);
  }

  lemma {:induction false} BadgeCallTodo(s: State, t: ThreadId, b: BadgeKey, o: Outcome)
    requires t in s.threads && s.threads[t].pc == BadgeCall(b)
    ensures var s' := StepBadgeCall(s, t, b, o); TodoEffect(s, t, s') && MintSource(s, t, s')
  {
    if o == Fails || InkStores.MintBadge(s.chain, b).None? {
      EndTodo(s, s, t);
    } else {
      var s1 := AcceptBadge(s, t, b, BadgeWrite(b, s.chain.nextId));
      GotoTodo(s, s.(chain := s1.chain, badgeFate := s1.badgeFate), t, BadgeWrite(b, s.chain.nextId));
      EndTodo(s, s1, t);
    }
  }

  lemma {:induction false} BadgeTodo(s: State, t: ThreadId, o: Outcome)
    requires t in s.threads
    requires var pc := s.threads[t].pc; pc.BadgeCheck? || pc.BadgeCall? || pc.BadgeWrite?
    ensures var s' := StepBadge(s, t, o); TodoEffect(s, t, s') && MintSource(s, t, s')
  {
    EndTodo(s, s, t);
    match s.threads[t].pc
    case BadgeCheck(b) =>
      AdvanceTodo(s, s, t);
      GotoTodo(s, s, t, BadgeCall(b));
    case BadgeCall(b) => BadgeCallTodo(s, t, b, o);
    case BadgeWrite(b, id) => AdvanceTodo(s, RecordBadge(s, t, b, id, Idle), t);
  }

  lemma {:induction false} TasksWanted(slot: Slot, newStatus: Status, newChapter: nat, existing: Option<Record>)
    ensures BadgesIn(TasksAfter(slot, existing, newStatus, newChapter))
            <= Wanted(RecordWrite(slot, newStatus, newChapter, existing))
  {
    var badges := TasksExactly(slot, existing, newStatus, newChapter);
    var tasks := TasksAfter(slot, existing, newStatus, newChapter);
    var n := |tasks| - |badges|;
    forall i | 0 <= i < |tasks| && tasks[i].BadgeTask? ensures tasks[i].badge in BadgesIn(badges) {
      assert i >= n && badges[i - n] == tasks[i];
    }
  }

  lemma {:induction false} RecordWriteTodo(s: State, t: ThreadId)
    requires t in s.threads && s.threads[t].pc.RecordWrite?
    ensures var s' := StepRecord(s, t, Good); TodoEffect(s, t, s') && s'.chain == s.chain
  {
    var pc := s.threads[t].pc;
    TasksWanted(pc.slot, pc.newStatus, pc.newChapter, pc.existing);
    var tasks := TasksAfter(pc.slot, pc.existing, pc.newStatus, pc.newChapter);
    var th := Thread(RecordTrack(pc.slot, pc.existing.None?), tasks);
    assert Todo(th) == BadgesIn(tasks);
    assert StepRecord(s, t, Good).threads == s.threads[t := th];
  }

  lemma {:induction false} RecordReadsTodo(s: State, t: ThreadId)
    requires t in s.threads
    requires var pc := s.threads[t].pc; pc.RecordSeries? || pc.RecordFind? || pc.RecordLast?
    ensures var s' := StepRecord(s, t, Good); TodoEffect(s, t, s') && s'.chain == s.chain
  {
    EndTodo(s, s, t);
    match s.threads[t].pc
    case RecordSeries(slot, status, requested) =>
      if requested >= 0 { GotoTodo(s, s, t, RecordFind(slot, status, requested)); }
    case RecordFind(slot, status, chapter) =>
      GotoTodo(s, s, t, RecordLast(slot, status, chapter, Lookup(s.records, slot)));
    case RecordLast(slot, status, chapter, existing) =>
      var newChapter := ReadingRules.Max(PrevChapter(existing), chapter);
      var next := RecordWrite(slot, DecideStatus(status, existing, newChapter, Lookup(s.lastChapter, slot.series)),
                              newChapter, existing);
      GotoTodo(s, s, t, next);
      GotoTodo(s, s.(earned := s.earned + {slot}), t, next);
  }

  lemma {:induction false} RecordTodo(s: State, t: ThreadId, o: Outcome)
    requires t in s.threads
    requires var pc := s.threads[t].pc;
             pc.RecordSeries? || pc.RecordFind? || pc.RecordLast? || pc.RecordWrite? || pc.RecordTrack?
    ensures var s' := StepRecord(s, t, o); TodoEffect(s, t, s') && s'.chain == s.chain
  {
    EndTodo(s, s, t);
    if o == Good {
      var pc := s.threads[t].pc;
      if pc.RecordWrite? { RecordWriteTodo(s, t); }
      else if pc.RecordTrack? { AdvanceTodo(s, s, t); }
      else { RecordReadsTodo(s, t); }
    }
  }

  lemma {:induction false} ApproveCallTodo(s: State, t: ThreadId, sub: SubmissionId, submitter: UserId,
      hasBadge: bool, o: Outcome)
    requires t in s.threads && s.threads[t].pc == ApproveCall(sub, submitter, hasBadge)
    ensures var s' := StepApproveCall(s, t, sub, submitter, hasBadge, o); TodoEffect(s, t, s') && MintSource(s, t, s')
  {
    EndTodo(s, s, t);
    if o != Fails && ApprovalOutcome(s, sub, submitter, hasBadge).Some? {
      OnChainThread(s, t, sub, submitter, hasBadge);
      OnChainGrowth(s, sub, submitter, hasBadge);
      OnChainTodo(s, t, sub, submitter, hasBadge);
      EndTodo(s, ApproveOnChain(s, t, sub, submitter, hasBadge), t);
    }
  }

  lemma {:induction false} OnChainTodo(s: State, t: ThreadId, sub: SubmissionId, submitter: UserId, hasBadge: bool)
    requires t in s.threads && ApprovalOutcome(s, sub, submitter, hasBadge).Some?
    ensures TodoEffect(s, t, ApproveOnChain(s, t, sub, submitter, hasBadge))
  {
  }

  lemma {:induction false} ApproveTodo(s: State, t: ThreadId, o: Outcome)
    requires t in s.threads
    requires var pc := s.threads[t].pc; pc.ApproveCheck? || pc.ApproveCall? || pc.ApproveWrite?
    ensures var s' := StepApprove(s, t, o); TodoEffect(s, t, s') && MintSource(s, t, s')
  {
    EndTodo(s, s, t);
    match s.threads[t].pc
    case ApproveCheck(sub, submitter) =>
      GotoTodo(s, s, t, ApproveCall(sub, submitter, ContributorBadge(submitter) in BadgeKeys(s.badgeRows)));
    case ApproveCall(sub, submitter, hasBadge) => ApproveCallTodo(s, t, sub, submitter, hasBadge, o);
    case ApproveWrite(_, _, _, _) =>
  }

  lemma {:induction false} VoteCastTodo(s: State, t: ThreadId)
    requires t in s.threads
    requires var pc := s.threads[t].pc; pc.VoteRead? || pc.VoteBalance? || pc.VoteUpsert? || pc.VoteRecount?
    ensures var s' := StepVote(s, t, Good); TodoEffect(s, t, s') && s'.chain == s.chain
  {
    EndTodo(s, s, t);
    match s.threads[t].pc
    case VoteRead(sub, voter, vote) =>
      GotoTodo(s, s, t, VoteBalance(sub, voter, vote));
      if sub in s.subs { GotoTodo(s, s, t, FinaliseRead(sub, s.subs[sub].votes, None)); }
    case VoteBalance(sub, voter, vote) =>
      GotoTodo(s, s, t, VoteUpsert(sub, VoteRow(voter, vote, BalanceOf(s.mirror, voter))));
    case VoteUpsert(sub, row) =>
      if sub in s.subs {
        var x := s.subs[sub];
        GotoTodo(s, s.(subs := s.subs[sub := x.(votes := UpsertVote(x.votes, row))]), t, VoteRecount(sub));
      }
    case VoteRecount(sub) =>
      if sub in s.subs {
        GotoTodo(s, s, t, FinaliseRead(sub, s.subs[sub].votes, Some(AutoApproves(s.subs[sub].votes))));
      }
  }

  lemma {:induction false} VerdictTodo(s: State, t: ThreadId)
    requires t in s.threads
    requires var pc := s.threads[t].pc;
             pc.FinaliseRead? || pc.RejectWrite? || pc.AdminApproveRead? || pc.AdminRejectRead?
    ensures var s' := StepVote(s, t, Good); TodoEffect(s, t, s') && s'.chain == s.chain
  {
    var sub := s.threads[t].pc.sub;
    EndTodo(s, s, t);
    if sub in s.subs {
      EndTodo(s, s.(subs := s.subs[sub := s.subs[sub].(status := SubmissionStatus.Rejected)]), t);
      GotoTodo(s, s, t, ApproveCheck(sub, s.subs[sub].submitter));
      GotoTodo(s, s, t, RejectWrite(sub));
    }
  }

  lemma {:induction false} StepTodo(s: State, t: ThreadId, o: Outcome)
    requires t in s.threads
    ensures var s' := StepThread(s, t, o); TodoEffect(s, t, s') && MintSource(s, t, s')
  {
    EndTodo(s, s, t);
    var pc := s.threads[t].pc;
    if pc.MintCheck? || pc.MintCall? || pc.MintWrite? { MintTodo(s, t, o); }
    else if pc.BadgeCheck? || pc.BadgeCall? || pc.BadgeWrite? { BadgeTodo(s, t, o); }
    else if pc.RecordSeries? || pc.RecordFind? || pc.RecordLast? || pc.RecordWrite?
        || pc.RecordTrack? { RecordTodo(s, t, o); }
    else if pc.ApproveCheck? || pc.ApproveCall? || pc.ApproveWrite? { ApproveTodo(s, t, o); }
    else if !pc.Idle? && o == Good {
      if pc.VoteRead? || pc.VoteBalance? || pc.VoteUpsert? || pc.VoteRecount? { VoteCastTodo(s, t); }
      else { VerdictTodo(s, t); }
    }
  }

  // ----- Whole runs -----

  /** The reader has submitted a chapter, or reached the end of a series, or had a submission approved on chain. */
  ghost predicate Deserved(s: State, b: BadgeKey)
  {
    || (b.category == 0 && b.badgeType == 0 && exists series :: Slot(b.recipient, series) in s.submitted)
    || (b.category == 0 && b.badgeType == 2 && exists series :: Slot(b.recipient, series) in s.earned)
    || (b.category == 4 && b.badgeType == 0 && exists x :: Approval(b.recipient, x) in s.chain.registry)
  }

  ghost predicate ThreadDeserves(s: State, th: Thread) { forall b :: b in Todo(th) ==> Deserved(s, b) }

  ghost predicate BadgesDeserved(s: State)
  {
    && (forall b :: b in s.chain.badges ==> Deserved(s, b))
    && (forall t :: t in s.threads ==> ThreadDeserves(s, s.threads[t]))
  }

  /** What a deserved badge rests on stays. */
  ghost predicate Keeps(s: State, s': State)
  {
    s.submitted.Keys <= s'.submitted.Keys && s.earned <= s'.earned && s.chain.registry <= s'.chain.registry
  }

  lemma {:induction false} DeservedKeeps(s: State, s': State, b: BadgeKey)
    requires Deserved(s, b) && Keeps(s, s')
    ensures Deserved(s', b)
  {
    if series :| Slot(b.recipient, series) in s.submitted {
      assert Slot(b.recipient, series) in s'.submitted.Keys;
    }
  }

  lemma {:induction false} StepKeeps(s: State, t: ThreadId, o: Outcome)
    requires t in s.threads
    ensures Keeps(s, StepThread(s, t, o))
  {
    StepFrame(s, t, o);
    StepEffect(s, t, o);
  }

  lemma {:induction false} StepDeserves(s: State, t: ThreadId, o: Outcome)
    requires Inv(s) && BadgesDeserved(s) && t in s.threads
    ensures BadgesDeserved(StepThread(s, t, o))
  {
    var s' := StepThread(s, t, o);
    StepKeeps(s, t, o);
    StepEffect(s, t, o);
    StepTodo(s, t, o);
    forall b | b in s'.chain.badges ensures Deserved(s', b) {
      NewBadgeDeserved(s, t, s', b);
    }
    forall u | u in s'.threads ensures ThreadDeserves(s', s'.threads[u]) {
      if u != t {
        assert s'.threads[u] == s.threads[u] && ThreadDeserves(s, s.threads[u]);
      }
    }
  }

  lemma {:induction false} NewBadgeDeserved(s: State, t: ThreadId, s': State, b: BadgeKey)
    requires t in s.threads && BadgesDeserved(s) && Keeps(s, s') && MintSource(s, t, s') && b in s'.chain.badges
    ensures Deserved(s', b)
  {
    var pc := s.threads[t].pc;
    if pc == BadgeCall(b) {
      assert ThreadDeserves(s, s.threads[t]) && b in Todo(s.threads[t]);
    }
    if b in s.chain.badges || pc == BadgeCall(b) {
      DeservedKeeps(s, s', b);
    }
  }

  lemma {:induction false} SpawnKeeps(s: State, t: ThreadId, r: Request)
    requires t !in s.threads
    ensures var s' := Apply(s, Spawn(t, r));
            && s'.chain == s.chain && Keeps(s, s')
            && s'.threads == s.threads[t := Thread(FirstPc(r), [])] && Todo(Thread(FirstPc(r), [])) == {}
  {
  }

  lemma {:induction false} CrashKeeps(s: State, t: ThreadId)
    requires t in s.threads
    ensures var s' := Apply(s, Crash(t)); s'.chain == s.chain && s'.threads == s.threads - {t} && Keeps(s, s')
  {
  }

  /** Actions that are no steps start a thread with nothing to mint, or leave the other threads and the chain alone. */
  lemma {:induction false} OtherKeeps(s: State, a: Action, u: ThreadId)
    requires !a.Step?
    ensures var s' := Apply(s, a);
            && s'.chain == s.chain && Keeps(s, s')
            && (u in s'.threads ==> if u in s.threads then s'.threads[u] == s.threads[u] else Todo(s'.threads[u]) == {})
  {
    if a.Spawn? {
      if a.t !in s.threads { SpawnKeeps(s, a.t, a.request); }
    } else if a.Crash? {
      if a.t in s.threads { CrashKeeps(s, a.t); }
    } else if a.NewPassport? {
    }
  }

  lemma {:induction false} OtherDeserves(s: State, a: Action)
    requires BadgesDeserved(s) && !a.Step?
    ensures BadgesDeserved(Apply(s, a))
  {
    var s' := Apply(s, a);
    forall b | b in s'.chain.badges ensures Deserved(s', b) {
      OtherKeeps(s, a, 0);
      DeservedKeeps(s, s', b);
    }
    forall u | u in s'.threads ensures ThreadDeserves(s', s'.threads[u]) {
      OtherKeeps(s, a, u);
    }
  }

  lemma {:induction false} RunDeserves(actions: seq<Action>)
    ensures BadgesDeserved(Run(actions))
    decreases |actions|
  {
    if actions != [] {
      var n := |actions| - 1;
      RunDeserves(actions[..n]);
      RunInv(actions[..n]);
      var s, a := Run(actions[..n]), actions[n];
      if a.Step? {
        if a.t in s.threads { StepDeserves(s, a.t, a.outcome); }
      } else {
        OtherDeserves(s, a);
      }
    }
  }

  /** The three badges there are, and the requests that earn them. */
  ghost predicate BadgeEarned(actions: seq<Action>, b: BadgeKey)
  {
    || (b.category == 0 && b.badgeType == 0
        && exists series :: SubmittedAtLeast(actions, Slot(b.recipient, series), 0))
    || (b.category == 0 && b.badgeType == 2
        && exists series, i: nat :: i < |actions| && CompletionEarnedAt(actions, i, Slot(b.recipient, series)))
    || (b.category == 4 && b.badgeType == 0 && exists x :: Approval(b.recipient, x) in Run(actions).chain.registry)
  }

  /**
    Whatever failed or interleaved, every badge on chain was earned: FIRST_CHAPTER by a reading update,
    SERIES_COMPLETIONIST by one that reached the end of a series, SUBMISSION_APPROVED by an approval's INK.
   */
  lemma {:induction false} BadgesEarned(actions: seq<Action>, b: BadgeKey)
    requires b in Run(actions).chain.badges
    ensures BadgeEarned(actions, b)
  {
    RunDeserves(actions);
    var s := Run(actions);
    if b.category == 0 && b.badgeType == 0 {
      var series :| Slot(b.recipient, series) in s.submitted;
      SubmittedFromRequests(actions, Slot(b.recipient, series));
      assert SubmittedAtLeast(actions, Slot(b.recipient, series), 0);
    } else if b.category == 0 {
      var series :| Slot(b.recipient, series) in s.earned;
      var i := EarnedFromSteps(actions, Slot(b.recipient, series));
      assert CompletionEarnedAt(actions, i, Slot(b.recipient, series));
    }
  }
}
