/** Every action of the reward machine keeps the invariant. */
module RewardSteps {
  import opened Wrappers
  import opened Keys
  import opened InkStores
  import opened ReadingRules
  import opened Tally
  import opened RewardMachine
  import opened RewardInvariant

  ghost predicate HoldsNothing(th: Thread) { Held(th).None? && HeldBadge(th).None? }

  // ----- Moving and ending threads -----

  /** Replacing a thread that holds nothing by one that holds nothing. */
  lemma {:induction false} ReplaceThread(s: State, t: ThreadId, th: Thread)
    requires Inv(s)
    requires t in s.threads ==> HoldsNothing(s.threads[t])
    requires HoldsNothing(th) && ThreadOk(ContextOf(s), th)
    ensures Inv(s.(threads := s.threads[t := th]))
  {
    HeldAfterUpdate(s.threads, t, th);
    FateUnchanged(s.fate, s.chain.registry, s.mirror.ledger.Keys, HeldKeys(s.threads), t);
    FateUnchanged(s.badgeFate, s.chain.badges, BadgeKeys(s.badgeRows), HeldBadges(s.threads), t);
  }

  /** One thread moves on to a justified step. */
  lemma {:induction false} ThreadsMoved(c: Context, threads: map<ThreadId, Thread>, t: ThreadId, pc: Pc)
    requires ThreadsOk(c, threads) && t in threads && PcOk(c, pc)
    ensures ThreadsOk(c, threads[t := threads[t].(pc := pc)])
  {
    assert ThreadOk(c, threads[t]);
  }

  lemma {:induction false} EndKeepsFates(s: State, t: ThreadId)
    requires FateOk(s) && t in s.threads
    ensures FateOk(End(s, t))
  {
    HeldAfterRemoval(s.threads, t);
    if t in HeldKeys(s.threads) {
      FateLost(s.fate, s.chain.registry, s.mirror.ledger.Keys, HeldKeys(s.threads), t);
    } else {
      FateUnchanged(s.fate, s.chain.registry, s.mirror.ledger.Keys, HeldKeys(s.threads), t);
    }
  }

  lemma {:induction false} EndKeepsBadgeFates(s: State, t: ThreadId)
    requires BadgeFateOk(s) && t in s.threads
    ensures BadgeFateOk(End(s, t))
  {
    HeldAfterRemoval(s.threads, t);
    if t in HeldBadges(s.threads) {
      FateLost(s.badgeFate, s.chain.badges, BadgeKeys(s.badgeRows), HeldBadges(s.threads), t);
    } else {
      FateUnchanged(s.badgeFate, s.chain.badges, BadgeKeys(s.badgeRows), HeldBadges(s.threads), t);
    }
  }

  lemma {:induction false} EndInv(s: State, t: ThreadId)
    requires Inv(s) && t in s.threads
    ensures Inv(End(s, t))
  {
    EndKeepsFates(s, t);
    EndKeepsBadgeFates(s, t);
  }

  lemma {:induction false} GotoInv(s: State, t: ThreadId, pc: Pc)
    requires Inv(s) && t in s.threads && HoldsNothing(s.threads[t])
    requires HoldsNothing(Thread(pc, [])) && PcOk(ContextOf(s), pc)
    ensures Inv(Goto(s, t, pc))
  {
    assert ThreadOk(ContextOf(s), s.threads[t]);
    ReplaceThread(s, t, s.threads[t].(pc := pc));
  }

  lemma {:induction false} AdvanceInv(s: State, t: ThreadId)
    requires Inv(s) && t in s.threads && HoldsNothing(s.threads[t])
    ensures Inv(Advance(s, t))
  {
    var rest := s.threads[t].rest;
    if rest == [] {
      EndInv(s, t);
    } else {
      assert ThreadOk(ContextOf(s), s.threads[t]);
      assert TaskOk(ContextOf(s), rest[0]);
      ReplaceThread(s, t, Thread(StartOf(rest[0]), rest[1..]));
    }
  }

  // ----- Chain steps -----

  lemma {:induction false} KeyFateAccepted(s: State, t: ThreadId, e: Earning, pc: Pc)
    requires FateOk(s) && BadgeFateOk(s) && t in s.threads && HoldsNothing(s.threads[t]) && Earn(s.chain, e).Some?
    requires Held(Thread(pc, [])) == Some(e.key) && HeldBadge(Thread(pc, [])).None?
    ensures FateOk(AcceptKey(s, t, e, pc)) && BadgeFateOk(AcceptKey(s, t, e, pc))
  {
    HeldAfterUpdate(s.threads, t, s.threads[t].(pc := pc));
    FateAccepted(s.fate, s.chain.registry, s.mirror.ledger.Keys, HeldKeys(s.threads), t, e.key);
    FateUnchanged(s.badgeFate, s.chain.badges, BadgeKeys(s.badgeRows), HeldBadges(s.threads), t);
  }

  /** The chain accepts a key for a thread that held none. */
  lemma {:induction false} ChainAccepts(s: State, t: ThreadId, e: Earning, pc: Pc)
    requires Inv(s) && t in s.threads && HoldsNothing(s.threads[t])
    requires Earn(s.chain, e).Some? && EarningOk(ContextOf(s), e)
    requires Held(Thread(pc, [])) == Some(e.key) && HeldBadge(Thread(pc, [])).None? && PcOk(ContextOf(s), pc)
    ensures Inv(AcceptKey(s, t, e, pc))
  {
    EarnKeepsChainOk(s.chain, e);
    KeyFateAccepted(s, t, e, pc);
    ThreadsMoved(ContextOf(s), s.threads, t, pc);
  }

  lemma {:induction false} BadgeFateAccepted(s: State, t: ThreadId, b: BadgeKey, pc: Pc)
    requires BadgeFateOk(s) && t in s.threads && HeldBadge(s.threads[t]).None?
    requires MintBadge(s.chain, b).Some? && HeldBadge(Thread(pc, [])) == Some(b)
    ensures BadgeFateOk(AcceptBadge(s, t, b, pc))
  {
    HeldAfterUpdate(s.threads, t, s.threads[t].(pc := pc));
    FateAccepted(s.badgeFate, s.chain.badges, BadgeKeys(s.badgeRows), HeldBadges(s.threads), t, b);
  }

  lemma {:induction false} KeyFateKept(s: State, t: ThreadId, b: BadgeKey, pc: Pc)
    requires FateOk(s) && t in s.threads && MintBadge(s.chain, b).Some? && Held(Thread(pc, [])) == Held(s.threads[t])
    ensures FateOk(AcceptBadge(s, t, b, pc))
  {
    SameHeldKey(s.threads, t, s.threads[t].(pc := pc));
  }

  /** The chain accepts a badge for a thread that held none; any ink key it holds stays held. */
  lemma {:induction false} BadgeAccepted(s: State, t: ThreadId, b: BadgeKey, pc: Pc)
    requires Inv(s) && t in s.threads && HeldBadge(s.threads[t]).None?
    requires MintBadge(s.chain, b).Some?
    requires HeldBadge(Thread(pc, [])) == Some(b) && Held(Thread(pc, [])) == Held(s.threads[t])
        && PcOk(ContextOf(s), pc)
    ensures Inv(AcceptBadge(s, t, b, pc))
  {
    MintBadgeKeepsChainOk(s.chain, b);
    BadgeFateAccepted(s, t, b, pc);
    KeyFateKept(s, t, b, pc);
    ThreadsMoved(ContextOf(s), s.threads, t, pc);
  }

  // ----- Mirror steps -----

  lemma {:induction false} FatesRecorded(s: State, t: ThreadId, e: Earning, digest: Digest)
    requires FateOk(s) && BadgeFateOk(s)
    requires t in s.threads && Held(s.threads[t]) == Some(e.key) && HeldBadge(s.threads[t]).None?
    requires Credit(s.mirror, e, digest).Some?
    ensures e.key !in s.mirror.ledger
    ensures FateOk(RecordKey(s, t, e, digest)) && BadgeFateOk(RecordKey(s, t, e, digest))
  {
    FateRecorded(s.fate, s.chain.registry, s.mirror.ledger.Keys, HeldKeys(s.threads), t);
    HeldAfterUpdate(s.threads, t, s.threads[t].(pc := Idle));
    FateUnchanged(s.badgeFate, s.chain.badges, BadgeKeys(s.badgeRows), HeldBadges(s.threads), t);
    assert Credit(s.mirror, e, digest).value.ledger.Keys == s.mirror.ledger.Keys + {e.key};
  }

  /** Crediting the key a thread holds: the key was not in the ledger, and only this thread held it. */
  lemma {:induction false} CreditHeldKey(s: State, t: ThreadId, e: Earning, digest: Digest)
    requires MirrorOk(s.mirror) && FateOk(s) && BadgeFateOk(s)
    requires t in s.threads && Held(s.threads[t]) == Some(e.key) && HeldBadge(s.threads[t]).None?
    requires Matches(e) && Credit(s.mirror, e, digest).Some?
    ensures e.key !in s.mirror.ledger
    ensures var s' := RecordKey(s, t, e, digest);
            && MirrorOk(s'.mirror) && FateOk(s') && BadgeFateOk(s')
            && s'.mirror.ledger.Keys == s.mirror.ledger.Keys + {e.key}
            && forall u :: BalanceOf(s.mirror, u) <= BalanceOf(s'.mirror, u)
  {
    FatesRecorded(s, t, e, digest);
    CreditKeepsMirrorOk(s.mirror, e, digest);
  }

  lemma {:induction false} MintWriteInv(s: State, t: ThreadId, e: Earning, digest: Digest)
    requires Inv(s) && t in s.threads && s.threads[t].pc == MintWrite(e, digest)
    requires Credit(s.mirror, e, digest).Some?
    ensures Inv(RecordKey(s, t, e, digest))
  {
    var s' := RecordKey(s, t, e, digest);
    assert ThreadOk(ContextOf(s), s.threads[t]);
    CreditHeldKey(s, t, e, digest);
    ContextGrows(ContextOf(s), ContextOf(s'), s.threads, s.chain.registry);
    ThreadsMoved(ContextOf(s'), s.threads, t, Idle);
  }

  lemma {:induction false} MintCallInv(s: State, t: ThreadId, e: Earning, o: Outcome)
    requires Inv(s) && t in s.threads && s.threads[t].pc == MintCall(e)
    ensures Inv(StepMintCall(s, t, e, o))
  {
    if o == Fails || (o == LostReply && Earn(s.chain, e).None?) {
      EndInv(s, t);
    } else if Earn(s.chain, e).None? {
      AdvanceInv(s, t);
    } else {
      assert ThreadOk(ContextOf(s), s.threads[t]);
      var pc := MintWrite(e, s.chain.nextId);
      ChainAccepts(s, t, e, pc);
      if o != Good {
        EndInv(AcceptKey(s, t, e, pc), t);
      }
    }
  }

  lemma {:induction false} MintStepInv(s: State, t: ThreadId, o: Outcome)
    requires Inv(s) && t in s.threads
    requires var pc := s.threads[t].pc; pc.MintCheck? || pc.MintCall? || pc.MintWrite?
    ensures Inv(StepMint(s, t, o))
  {
    assert ThreadOk(ContextOf(s), s.threads[t]);
    match s.threads[t].pc
    case MintCheck(e) =>
      if o != Good { EndInv(s, t); }
      else if HasRow(s.mirror, e.key) { AdvanceInv(s, t); }
      else { GotoInv(s, t, MintCall(e)); }
    case MintCall(e) =>
      MintCallInv(s, t, e, o);
    case MintWrite(e, digest) =>
      if o != Good || Credit(s.mirror, e, digest).None? { EndInv(s, t); }
      else {
        MintWriteInv(s, t, e, digest);
        AdvanceInv(RecordKey(s, t, e, digest), t);
      }
  }

  lemma {:induction false} BadgeKeysAppend(rows: seq<BadgeRow>, row: BadgeRow)
    ensures BadgeKeys(rows + [row]) == BadgeKeys(rows) + {row.key}
    ensures DistinctRows(rows) && row.key !in BadgeKeys(rows) ==> DistinctRows(rows + [row])
  {
    var all := rows + [row];
    forall k | k in BadgeKeys(rows) + {row.key} ensures k in BadgeKeys(all) {
      if k == row.key {
        assert all[|rows|].key == k;
      } else {
        var i :| 0 <= i < |rows| && rows[i].key == k;
        assert all[i].key == k;
      }
    }
    if DistinctRows(rows) && row.key !in BadgeKeys(rows) {
      forall i, j | 0 <= i < j < |all| ensures all[i].key != all[j].key {
        assert rows[i].key in BadgeKeys(rows);
      }
    }
  }

  /** The row of a badge the thread holds is new, whatever the thread does next. */
  lemma {:induction false} RecordBadgeInv(s: State, t: ThreadId, b: BadgeKey, id: Digest, pc: Pc)
    requires Inv(s) && t in s.threads && HeldBadge(s.threads[t]) == Some(b)
    requires HeldBadge(Thread(pc, [])).None? && Held(Thread(pc, [])) == Held(s.threads[t]) && PcOk(ContextOf(s), pc)
    ensures b !in BadgeKeys(s.badgeRows)
    ensures Inv(RecordBadge(s, t, b, id, pc))
  {
    assert ThreadOk(ContextOf(s), s.threads[t]);
    var th := s.threads[t].(pc := pc);
    FateRecorded(s.badgeFate, s.chain.badges, BadgeKeys(s.badgeRows), HeldBadges(s.threads), t);
    BadgeKeysAppend(s.badgeRows, BadgeRow(b, id));
    HeldAfterUpdate(s.threads, t, th);
    SameHeldKey(s.threads, t, th);
  }

  lemma {:induction false} BadgeStepInv(s: State, t: ThreadId, o: Outcome)
    requires Inv(s) && t in s.threads
    requires var pc := s.threads[t].pc; pc.BadgeCheck? || pc.BadgeCall? || pc.BadgeWrite?
    ensures Inv(StepBadge(s, t, o))
  {
    match s.threads[t].pc
    case BadgeCheck(b) =>
      if o != Good { EndInv(s, t); }
      else if b in BadgeKeys(s.badgeRows) { AdvanceInv(s, t); }
      else { GotoInv(s, t, BadgeCall(b)); }
    case BadgeCall(b) =>
      if o == Fails || MintBadge(s.chain, b).None? { EndInv(s, t); }
      else {
        var pc := BadgeWrite(b, s.chain.nextId);
        BadgeAccepted(s, t, b, pc);
        if o != Good {
          EndInv(AcceptBadge(s, t, b, pc), t);
        }
      }
    case BadgeWrite(b, id) =>
      if o != Good { EndInv(s, t); }
      else {
        RecordBadgeInv(s, t, b, id, Idle);
        AdvanceInv(RecordBadge(s, t, b, id, Idle), t);
      }
  }

  // ----- Reading updates -----

  /** The tasks of an update are justified by what was submitted and earned. */
  lemma {:induction false} TasksJustified(c: Context, slot: Slot, existing: Option<Record>, newStatus: Status,
      newChapter: nat)
    requires slot in c.submitted && newChapter <= c.submitted[slot]
    requires newStatus == Completed && !WasCompleted(existing) ==> slot in c.earned
    ensures forall i :: 0 <= i < |TasksAfter(slot, existing, newStatus, newChapter)| ==>
              TaskOk(c, TasksAfter(slot, existing, newStatus, newChapter)[i])
  {
    var es := Rewards(slot.user, slot.series, PrevChapter(existing), newChapter, existing.None?,
                      WasCompleted(existing), newStatus == Completed);
    RewardsJustified(slot.user, slot.series, PrevChapter(existing), newChapter, existing.None?,
                     WasCompleted(existing), newStatus == Completed, c.submitted[slot], slot in c.earned);
    forall i | 0 <= i < |es| ensures MintOk(c, es[i]) {
      assert es[i] in es;
      assert Slot(es[i].key.user, es[i].key.series) == slot;
    }
  }

  lemma {:induction false} RecordLastInv(s: State, t: ThreadId, slot: Slot, status: Status, chapter: nat,
      existing: Option<Record>)
    requires Inv(s) && t in s.threads && s.threads[t].pc == RecordLast(slot, status, chapter, existing)
    ensures Inv(StepRecord(s, t, Good))
  {
    assert ThreadOk(ContextOf(s), s.threads[t]);
    var newChapter := ReadingRules.Max(PrevChapter(existing), chapter);
    var last := Lookup(s.lastChapter, slot.series);
    var pc := RecordWrite(slot, DecideStatus(status, existing, newChapter, last), newChapter, existing);
    if status == Completed && !WasCompleted(existing) && ReachedEnd(newChapter, last) {
      GotoInv(s.(earned := s.earned + {slot}), t, pc);
    } else {
      GotoInv(s, t, pc);
    }
  }

  lemma {:induction false} RecordWriteStepInv(s: State, t: ThreadId, slot: Slot, newStatus: Status,
      newChapter: nat, existing: Option<Record>)
    requires Inv(s) && t in s.threads && s.threads[t].pc == RecordWrite(slot, newStatus, newChapter, existing)
    ensures Inv(StepRecord(s, t, Good))
  {
    assert ThreadOk(ContextOf(s), s.threads[t]);
    var row := UpsertRecord(existing, Lookup(s.records, slot), newStatus, newChapter, s.now);
    TasksJustified(ContextOf(s), slot, existing, newStatus, newChapter);
    ReplaceThread(s.(records := s.records[slot := row]), t,
                  Thread(RecordTrack(slot, existing.None?), TasksAfter(slot, existing, newStatus, newChapter)));
  }

  lemma {:induction false} RecordSeriesInv(s: State, t: ThreadId, slot: Slot, status: Status, requested: int)
    requires Inv(s) && t in s.threads && s.threads[t].pc == RecordSeries(slot, status, requested)
    ensures Inv(StepRecord(s, t, Good))
  {
    assert ThreadOk(ContextOf(s), s.threads[t]);
    if slot.series !in s.liveSeries || requested < 0 {
      EndInv(s, t);
    } else {
      GotoInv(s, t, RecordFind(slot, status, requested));
    }
  }

  lemma {:induction false} RecordFindInv(s: State, t: ThreadId, slot: Slot, status: Status, chapter: nat)
    requires Inv(s) && t in s.threads && s.threads[t].pc == RecordFind(slot, status, chapter)
    ensures Inv(StepRecord(s, t, Good))
  {
    assert ThreadOk(ContextOf(s), s.threads[t]);
    GotoInv(s, t, RecordLast(slot, status, chapter, Lookup(s.records, slot)));
  }

  lemma {:induction false} RecordTrackInv(s: State, t: ThreadId, slot: Slot, isNew: bool)
    requires Inv(s) && t in s.threads && s.threads[t].pc == RecordTrack(slot, isNew)
    ensures Inv(StepRecord(s, t, Good))
  {
    if isNew && slot.user !in s.mirror.inkEarned {
      EndInv(s, t);
    } else {
      AdvanceInv(s, t);
    }
  }

  lemma {:induction false} RecordStepInv(s: State, t: ThreadId, o: Outcome)
    requires Inv(s) && t in s.threads
    requires var pc := s.threads[t].pc;
             pc.RecordSeries? || pc.RecordFind? || pc.RecordLast? || pc.RecordWrite? || pc.RecordTrack?
    ensures Inv(StepRecord(s, t, o))
  {
    if o != Good {
      EndInv(s, t);
    } else {
      match s.threads[t].pc
      case RecordSeries(slot, status, requested) =>
        RecordSeriesInv(s, t, slot, status, requested);
      case RecordFind(slot, status, chapter) =>
        RecordFindInv(s, t, slot, status, chapter);
      case RecordLast(slot, status, chapter, existing) =>
        RecordLastInv(s, t, slot, status, chapter, existing);
      case RecordWrite(slot, newStatus, newChapter, existing) =>
        RecordWriteStepInv(s, t, slot, newStatus, newChapter, existing);
      case RecordTrack(slot, isNew) =>
        RecordTrackInv(s, t, slot, isNew);
    }
  }

  // ----- Voting -----

  lemma {:induction false} VoteUpsertInv(s: State, x: SubmissionId, row: VoteRow)
    requires Inv(s) && x in s.subs && row.inkWeight <= BalanceOf(s.mirror, row.voter)
    ensures Inv(s.(subs := s.subs[x := s.subs[x].(votes := UpsertVote(s.subs[x].votes, row))]))
  {
    assert SubOk(s.mirror, x, s.subs[x]);
  }

  lemma {:induction false} RejectInv(s: State, x: SubmissionId)
    requires Inv(s) && x in s.subs
    ensures Inv(s.(subs := s.subs[x := s.subs[x].(status := Rejected)]))
  {
    assert SubOk(s.mirror, x, s.subs[x]);
  }

  lemma {:induction false} RecountInv(s: State, t: ThreadId, sub: SubmissionId)
    requires Inv(s) && t in s.threads && s.threads[t].pc == VoteRecount(sub)
    ensures Inv(StepVote(s, t, Good))
  {
    if sub in s.subs && TallyOf(s.subs[sub].votes, false).finalisable {
      GotoInv(s, t, FinaliseRead(sub, s.subs[sub].votes, Some(AutoApproves(s.subs[sub].votes))));
    } else {
      EndInv(s, t);
    }
  }

  lemma {:induction false} FinaliseReadInv(s: State, t: ThreadId, sub: SubmissionId, votes: seq<VoteRow>,
      force: Option<bool>)
    requires Inv(s) && t in s.threads && s.threads[t].pc == FinaliseRead(sub, votes, force)
    ensures Inv(StepVote(s, t, Good))
  {
    if sub !in s.subs || s.subs[sub].status != Pending {
      EndInv(s, t);
    } else if (if force.Some? then force.value else LazyApproves(votes)) {
      GotoInv(s, t, ApproveCheck(sub, s.subs[sub].submitter));
    } else {
      GotoInv(s, t, RejectWrite(sub));
    }
  }

  lemma {:induction false} RejectWriteInv(s: State, t: ThreadId, sub: SubmissionId)
    requires Inv(s) && t in s.threads && s.threads[t].pc == RejectWrite(sub)
    ensures Inv(StepVote(s, t, Good))
  {
    if sub in s.subs {
      RejectInv(s, sub);
      EndInv(s.(subs := s.subs[sub := s.subs[sub].(status := Rejected)]), t);
    } else {
      EndInv(s, t);
    }
  }

  lemma {:induction false} AdminReadInv(s: State, t: ThreadId, sub: SubmissionId, pc: Pc)
    requires Inv(s) && t in s.threads && s.threads[t].pc == pc && (pc == AdminApproveRead(sub) || pc
        == AdminRejectRead(sub))
    ensures Inv(StepVote(s, t, Good))
  {
    if sub !in s.subs || s.subs[sub].status != Pending {
      EndInv(s, t);
    } else {
      var next := if pc.AdminApproveRead? then ApproveCheck(sub, s.subs[sub].submitter) else RejectWrite(sub);
      GotoInv(s, t, next);
    }
  }

  lemma {:induction false} VoteReadInv(s: State, t: ThreadId, sub: SubmissionId, voter: UserId, vote: int)
    requires Inv(s) && t in s.threads && s.threads[t].pc == VoteRead(sub, voter, vote)
    ensures Inv(StepVote(s, t, Good))
  {
    if sub !in s.subs || s.subs[sub].status != Pending {
      EndInv(s, t);
    } else if s.now > s.subs[sub].votingEndsAt {
      GotoInv(s, t, FinaliseRead(sub, s.subs[sub].votes, None));
    } else {
      GotoInv(s, t, VoteBalance(sub, voter, vote));
    }
  }

  lemma {:induction false} VoteBalanceInv(s: State, t: ThreadId, sub: SubmissionId, voter: UserId, vote: int)
    requires Inv(s) && t in s.threads && s.threads[t].pc == VoteBalance(sub, voter, vote)
    ensures Inv(StepVote(s, t, Good))
  {
    if BalanceOf(s.mirror, voter) < MIN_INK_TO_VOTE {
      EndInv(s, t);
    } else {
      GotoInv(s, t, VoteUpsert(sub, VoteRow(voter, vote, BalanceOf(s.mirror, voter))));
    }
  }

  lemma {:induction false} VoteUpsertStepInv(s: State, t: ThreadId, sub: SubmissionId, row: VoteRow)
    requires Inv(s) && t in s.threads && s.threads[t].pc == VoteUpsert(sub, row)
    ensures Inv(StepVote(s, t, Good))
  {
    if sub !in s.subs {
      EndInv(s, t);
    } else {
      assert ThreadOk(ContextOf(s), s.threads[t]);
      VoteUpsertInv(s, sub, row);
      GotoInv(s.(subs := s.subs[sub := s.subs[sub].(votes := UpsertVote(s.subs[sub].votes, row))]), t,
          VoteRecount(sub));
    }
  }

  lemma {:induction false} VoteStepInv(s: State, t: ThreadId, o: Outcome)
    requires Inv(s) && t in s.threads
    requires var pc := s.threads[t].pc;
             pc.VoteRead? || pc.VoteBalance? || pc.VoteUpsert? || pc.VoteRecount? || pc.FinaliseRead?
             || pc.RejectWrite? || pc.AdminApproveRead? || pc.AdminRejectRead?
    ensures Inv(StepVote(s, t, o))
  {
    if o != Good {
      EndInv(s, t);
    } else {
      match s.threads[t].pc
      case VoteRead(sub, voter, vote) => VoteReadInv(s, t, sub, voter, vote);
      case VoteBalance(sub, voter, vote) => VoteBalanceInv(s, t, sub, voter, vote);
      case VoteUpsert(sub, row) => VoteUpsertStepInv(s, t, sub, row);
      case VoteRecount(sub) => RecountInv(s, t, sub);
      case FinaliseRead(sub, votes, force) => FinaliseReadInv(s, t, sub, votes, force);
      case RejectWrite(sub) => RejectWriteInv(s, t, sub);
      case AdminApproveRead(sub) => AdminReadInv(s, t, sub, AdminApproveRead(sub));
      case AdminRejectRead(sub) => AdminReadInv(s, t, sub, AdminRejectRead(sub));
    }
  }

  // ----- Approval -----

  /** Earn alone, or earn and badge together, leave what was minted in flight with this thread. */
  lemma {:induction false} ApproveOnChainInv(s: State, t: ThreadId, sub: SubmissionId, submitter: UserId,
      hasBadge: bool)
    requires Inv(s) && t in s.threads && s.threads[t].pc == ApproveCall(sub, submitter, hasBadge)
    requires ApprovalOutcome(s, sub, submitter, hasBadge).Some?
    ensures Inv(ApproveOnChain(s, t, sub, submitter, hasBadge))
  {
    var id := s.chain.nextId;
    KeyHalfInv(s, t, sub, submitter, hasBadge);
    WithBadgeInv(AcceptKey(s, t, ApprovalEarning(sub, submitter), ApproveWrite(sub, submitter, id, None)),
                 t, sub, submitter, id, hasBadge);
  }

  lemma {:induction false} KeyHalfInv(s: State, t: ThreadId, sub: SubmissionId, submitter: UserId, hasBadge: bool)
    requires Inv(s) && t in s.threads && s.threads[t].pc == ApproveCall(sub, submitter, hasBadge)
    requires Earn(s.chain, ApprovalEarning(sub, submitter)).Some?
    ensures Inv(AcceptKey(s, t, ApprovalEarning(sub, submitter), ApproveWrite(sub, submitter, s.chain.nextId, None)))
  {
    assert ThreadOk(ContextOf(s), s.threads[t]);
    ChainAccepts(s, t, ApprovalEarning(sub, submitter), ApproveWrite(sub, submitter, s.chain.nextId, None));
  }

  lemma {:induction false} WithBadgeInv(s: State, t: ThreadId, sub: SubmissionId, submitter: UserId,
      id: Digest, hasBadge: bool)
    requires Inv(s) && t in s.threads && s.threads[t].pc == ApproveWrite(sub, submitter, id, None)
    requires hasBadge || MintBadge(s.chain, ContributorBadge(submitter)).Some?
    ensures Inv(WithBadge(s, t, sub, submitter, id, hasBadge))
  {
    if !hasBadge {
      assert ThreadOk(ContextOf(s), s.threads[t]);
      BadgeAccepted(s, t, ContributorBadge(submitter), ApproveWrite(sub, submitter, id, Some(id + 1)));
    }
  }

  lemma {:induction false} ApproveCallInv(s: State, t: ThreadId, sub: SubmissionId, submitter: UserId,
      hasBadge: bool, o: Outcome)
    requires Inv(s) && t in s.threads && s.threads[t].pc == ApproveCall(sub, submitter, hasBadge)
    ensures Inv(StepApproveCall(s, t, sub, submitter, hasBadge, o))
  {
    if o == Fails || ApprovalOutcome(s, sub, submitter, hasBadge).None? {
      EndInv(s, t);
    } else {
      ApproveOnChainInv(s, t, sub, submitter, hasBadge);
      if o != Good {
        EndInv(ApproveOnChain(s, t, sub, submitter, hasBadge), t);
      }
    }
  }

  /** The badge row the transaction looks for never exists when the chain created the badge. */
  lemma {:induction false} AdoptBadgeInv(s: State, t: ThreadId, sub: SubmissionId, submitter: UserId,
      digest: Digest, badgeObject: Option<Digest>)
    requires Inv(s) && t in s.threads && s.threads[t].pc == ApproveWrite(sub, submitter, digest, badgeObject)
    ensures badgeObject.Some? ==> ContributorBadge(submitter) !in BadgeKeys(s.badgeRows)
    ensures var s' := AdoptBadge(s, t, sub, submitter, digest, badgeObject);
            Inv(s') && t in s'.threads && s'.threads[t].pc == ApproveWrite(sub, submitter, digest, None)
            && s'.subs == s.subs && s'.mirror == s.mirror
  {
    if badgeObject.Some? {
      assert ThreadOk(ContextOf(s), s.threads[t]);
      RecordBadgeInv(s, t, ContributorBadge(submitter), badgeObject.value, ApproveWrite(sub, submitter, digest, None));
    }
  }

  lemma {:induction false} ApprovedContext(s: State, s': State, sub: SubmissionId)
    requires ThreadsOk(ContextOf(s), s.threads) && KeysOk(ContextOf(s), s.chain.registry) && SubsOk(s.mirror, s.subs)
    requires sub in s.subs && s'.subs == s.subs[sub := s.subs[sub].(status := Approved, rewardClaimed := true)]
    requires s'.submitted == s.submitted && s'.earned == s.earned
    requires s'.mirror.ledger.Keys == s.mirror.ledger.Keys + {Approval(s.subs[sub].submitter, sub)}
    requires forall u :: BalanceOf(s.mirror, u) <= BalanceOf(s'.mirror, u)
    ensures ThreadsOk(ContextOf(s'), s.threads) && KeysOk(ContextOf(s'), s.chain.registry) && SubsOk(s'.mirror, s'.subs)
  {
    ContextGrows(ContextOf(s), ContextOf(s'), s.threads, s.chain.registry);
  }

  lemma {:induction false} ApprovedStores(s: State, t: ThreadId, sub: SubmissionId, submitter: UserId, digest: Digest)
    requires MirrorOk(s.mirror) && FateOk(s) && BadgeFateOk(s)
    requires t in s.threads && s.threads[t].pc == ApproveWrite(sub, submitter, digest, None) && sub in s.subs
    requires Credit(s.mirror, ApprovalEarning(sub, submitter), digest).Some?
    ensures var s' := MarkApproved(RecordKey(s, t, ApprovalEarning(sub, submitter), digest), sub);
            && MirrorOk(s'.mirror) && FateOk(s') && BadgeFateOk(s')
            && s'.mirror.ledger.Keys == s.mirror.ledger.Keys + {Approval(submitter, sub)}
            && forall u :: BalanceOf(s.mirror, u) <= BalanceOf(s'.mirror, u)
  {
    var e := ApprovalEarning(sub, submitter);
    CreditHeldKey(s, t, e, digest);
  }

  /** The ink half: ledger row, credit, status and claim in one transaction. */
  lemma {:induction false} ApproveCreditInv(s: State, t: ThreadId, sub: SubmissionId, submitter: UserId,
      digest: Digest)
    requires Inv(s) && t in s.threads && s.threads[t].pc == ApproveWrite(sub, submitter, digest, None)
    requires sub in s.subs && Credit(s.mirror, ApprovalEarning(sub, submitter), digest).Some?
    ensures Inv(MarkApproved(RecordKey(s, t, ApprovalEarning(sub, submitter), digest), sub))
  {
    var s' := MarkApproved(RecordKey(s, t, ApprovalEarning(sub, submitter), digest), sub);
    ApprovedStores(s, t, sub, submitter, digest);
    ApprovedContext(s, s', sub);
    ThreadsMoved(ContextOf(s'), s.threads, t, Idle);
  }

  lemma {:induction false} ApproveWriteInv(s: State, t: ThreadId, sub: SubmissionId, submitter: UserId,
      digest: Digest, badgeObject: Option<Digest>)
    requires Inv(s) && t in s.threads && s.threads[t].pc == ApproveWrite(sub, submitter, digest, badgeObject)
    ensures Inv(StepApproveWrite(s, t, sub, submitter, digest, badgeObject))
  {
    var e := ApprovalEarning(sub, submitter);
    if sub !in s.subs || Credit(s.mirror, e, digest).None? {
      EndInv(s, t);
    } else {
      AdoptBadgeInv(s, t, sub, submitter, digest, badgeObject);
      var s1 := AdoptBadge(s, t, sub, submitter, digest, badgeObject);
      ApproveCreditInv(s1, t, sub, submitter, digest);
      EndInv(MarkApproved(RecordKey(s1, t, e, digest), sub), t);
    }
  }

  lemma {:induction false} ApproveCheckInv(s: State, t: ThreadId, sub: SubmissionId, submitter: UserId)
    requires Inv(s) && t in s.threads && s.threads[t].pc == ApproveCheck(sub, submitter)
    ensures Inv(StepApprove(s, t, Good))
  {
    assert ThreadOk(ContextOf(s), s.threads[t]);
    GotoInv(s, t, ApproveCall(sub, submitter, ContributorBadge(submitter) in BadgeKeys(s.badgeRows)));
  }

  lemma {:induction false} ApproveStepInv(s: State, t: ThreadId, o: Outcome)
    requires Inv(s) && t in s.threads
    requires var pc := s.threads[t].pc; pc.ApproveCheck? || pc.ApproveCall? || pc.ApproveWrite?
    ensures Inv(StepApprove(s, t, o))
  {
    match s.threads[t].pc
    case ApproveCheck(sub, submitter) =>
      if o != Good { EndInv(s, t); } else { ApproveCheckInv(s, t, sub, submitter); }
    case ApproveCall(sub, submitter, hasBadge) =>
      ApproveCallInv(s, t, sub, submitter, hasBadge, o);
    case ApproveWrite(sub, submitter, digest, badgeObject) =>
      if o != Good { EndInv(s, t); } else { ApproveWriteInv(s, t, sub, submitter, digest, badgeObject); }
  }

  // ----- Requests and the environment -----

  lemma {:induction false} SpawnInv(s: State, t: ThreadId, r: Request)
    requires Inv(s) && t !in s.threads
    ensures Inv(Apply(s, Spawn(t, r)))
  {
    var s1 := s.(submitted := NoteSubmitted(s.submitted, r));
    ContextGrows(ContextOf(s), ContextOf(s1), s.threads, s.chain.registry);
    assert Inv(s1);
    ReplaceThread(s1, t, Thread(FirstPc(r), []));
  }

  lemma {:induction false} NewPassportInv(s: State, u: UserId)
    requires Inv(s) && u !in s.mirror.inkEarned
    ensures Inv(Apply(s, NewPassport(u)))
  {
    var s' := Apply(s, NewPassport(u));
    NewPassportKeepsMirrorOk(s.mirror, u);
    ContextGrows(ContextOf(s), ContextOf(s'), s.threads, s.chain.registry);
    forall x | x in s.subs ensures SubOk(s'.mirror, x, s.subs[x]) {
      assert SubOk(s.mirror, x, s.subs[x]);
    }
  }

  lemma {:induction false} NewSubmissionInv(s: State, x: SubmissionId, submitter: UserId, ends: int)
    requires Inv(s) && x !in s.subs
    ensures Inv(Apply(s, NewSubmission(x, submitter, ends)))
  {
    var s' := Apply(s, NewSubmission(x, submitter, ends));
    ContextGrows(ContextOf(s), ContextOf(s'), s.threads, s.chain.registry);
    assert Approval(submitter, x) !in s.mirror.ledger by {
      assert !KeyOk(ContextOf(s), Approval(submitter, x));
    }
  }

  lemma {:induction false} ApplyInv(s: State, a: Action)
    requires Inv(s)
    ensures Inv(Apply(s, a))
  {
    match a
    case Spawn(t, r) => if t !in s.threads { SpawnInv(s, t, r); }
    case Step(t, o) => if t in s.threads { StepThreadInv(s, t, o); }
    case Crash(t) => if t in s.threads { EndInv(s, t); }
    case DeleteRecord(slot) =>
    case NewPassport(u) => if u !in s.mirror.inkEarned { NewPassportInv(s, u); }
    case NewSubmission(x, submitter, ends) => if x !in s.subs { NewSubmissionInv(s, x, submitter, ends); }
    case SetSeries(_, _) =>
    case SetLastChapter(_, _) =>
    case Tick(_) =>
  }

  lemma {:induction false} StepThreadInv(s: State, t: ThreadId, o: Outcome)
    requires Inv(s) && t in s.threads
    ensures Inv(StepThread(s, t, o))
  {
    var pc := s.threads[t].pc;
    if pc.MintCheck? || pc.MintCall? || pc.MintWrite? { MintStepInv(s, t, o); }
    else if pc.BadgeCheck? || pc.BadgeCall? || pc.BadgeWrite? { BadgeStepInv(s, t, o); }
    else if pc.RecordSeries? || pc.RecordFind? || pc.RecordLast? || pc.RecordWrite?
        || pc.RecordTrack? { RecordStepInv(s, t, o); }
    else if pc.ApproveCheck? || pc.ApproveCall? || pc.ApproveWrite? { ApproveStepInv(s, t, o); }
    else if pc.Idle? { EndInv(s, t); }
    else { VoteStepInv(s, t, o); }
  }

  /** The invariant holds after every interleaving. */
  lemma {:induction false} RunInv(actions: seq<Action>)
    ensures Inv(Run(actions))
    decreases |actions|
  {
    if actions == [] {
      InitInv();
    } else {
      RunInv(actions[..|actions| - 1]);
      ApplyInv(Run(actions[..|actions| - 1]), actions[|actions| - 1]);
    }
  }
}
