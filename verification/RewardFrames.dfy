/** Which rows of the two stores a thread step can change. */
module RewardFrames {
  import opened Wrappers
  import opened Keys
  import opened InkStores
  import opened ReadingRules
  import opened Tally
  import opened RewardMachine

  predicate ReachesEnd(s: State, pc: Pc, slot: Slot)
  {
    && pc.RecordLast? && pc.slot == slot && pc.status == Completed && !WasCompleted(pc.existing)
    && ReachedEnd(ReadingRules.Max(PrevChapter(pc.existing), pc.chapter), Lookup(s.lastChapter, slot.series))
  }

  // ----- What a thread step can change -----

  ghost predicate SameRows(s: State, s': State)
  {
    s'.subs == s.subs && s'.submitted == s.submitted && s'.earned == s.earned && s'.mirror == s.mirror
  }

  lemma {:induction false} EndFrame(s: State, t: ThreadId)
    requires t in s.threads
    ensures SameRows(s, End(s, t))
  {
  }

  lemma {:induction false} AdvanceFrame(s: State, t: ThreadId)
    requires t in s.threads
    ensures SameRows(s, Advance(s, t))
  {
  }

  lemma {:induction false} MintCallFrame(s: State, t: ThreadId, e: Earning, o: Outcome)
    requires t in s.threads
    ensures SameRows(s, StepMintCall(s, t, e, o))
  {
    if o == Fails || Earn(s.chain, e).None? {
      EndFrame(s, t);
      AdvanceFrame(s, t);
    } else {
      EndFrame(AcceptKey(s, t, e, MintWrite(e, s.chain.nextId)), t);
    }
  }

  lemma {:induction false} MintWriteFrame(s: State, t: ThreadId, e: Earning, digest: Digest)
    requires t in s.threads
    ensures var s' := StepMintWrite(s, t, e, digest);
            && s'.subs == s.subs && s'.submitted == s.submitted && s'.earned == s.earned
            && (s'.mirror == s.mirror || Credit(s.mirror, e, digest) == Some(s'.mirror))
  {
    if Credit(s.mirror, e, digest).None? {
      EndFrame(s, t);
    } else {
      AdvanceFrame(RecordKey(s, t, e, digest), t);
    }
  }

  /** Minting touches the mirror only by crediting the key it holds. */
  lemma {:induction false} MintStepFrame(s: State, t: ThreadId, o: Outcome)
    requires t in s.threads && (s.threads[t].pc.MintCheck? || s.threads[t].pc.MintCall? || s.threads[t].pc.MintWrite?)
    ensures var s' := StepMint(s, t, o); var pc := s.threads[t].pc;
            && s'.subs == s.subs && s'.submitted == s.submitted && s'.earned == s.earned
            && (s'.mirror == s.mirror
                || (pc.MintWrite? && o == Good && Credit(s.mirror, pc.e, pc.digest) == Some(s'.mirror)))
  {
    match s.threads[t].pc
    case MintCheck(e) =>
      EndFrame(s, t);
      AdvanceFrame(s, t);
    case MintCall(e) =>
      MintCallFrame(s, t, e, o);
    case MintWrite(e, digest) =>
      EndFrame(s, t);
      MintWriteFrame(s, t, e, digest);
  }

  lemma {:induction false} BadgeCallFrame(s: State, t: ThreadId, b: BadgeKey, o: Outcome)
    requires t in s.threads
    ensures SameRows(s, StepBadgeCall(s, t, b, o))
  {
    EndFrame(s, t);
    if MintBadge(s.chain, b).Some? {
      EndFrame(AcceptBadge(s, t, b, BadgeWrite(b, s.chain.nextId)), t);
    }
  }

  lemma {:induction false} BadgeStepFrame(s: State, t: ThreadId, o: Outcome)
    requires t in s.threads && (s.threads[t].pc.BadgeCheck? || s.threads[t].pc.BadgeCall?
        || s.threads[t].pc.BadgeWrite?)
    ensures SameRows(s, StepBadge(s, t, o))
  {
    match s.threads[t].pc
    case BadgeCheck(b) =>
      EndFrame(s, t);
      AdvanceFrame(s, t);
    case BadgeCall(b) =>
      BadgeCallFrame(s, t, b, o);
    case BadgeWrite(b, id) =>
      EndFrame(s, t);
      AdvanceFrame(RecordBadge(s, t, b, id, Idle), t);
  }

  lemma {:induction false} RecordEdgesFrame(s: State, t: ThreadId, o: Outcome)
    requires t in s.threads && (s.threads[t].pc.RecordSeries? || s.threads[t].pc.RecordFind?
        || s.threads[t].pc.RecordTrack?)
    ensures SameRows(s, StepRecord(s, t, o))
  {
    EndFrame(s, t);
    AdvanceFrame(s, t);
  }

  lemma {:induction false} RecordStepFrame(s: State, t: ThreadId, o: Outcome)
    requires t in s.threads
    requires var pc := s.threads[t].pc;
             pc.RecordSeries? || pc.RecordFind? || pc.RecordLast? || pc.RecordWrite? || pc.RecordTrack?
    ensures var s' := StepRecord(s, t, o); var pc := s.threads[t].pc;
            && s'.subs == s.subs && s'.submitted == s.submitted && s'.mirror == s.mirror
            && (s'.earned == s.earned
                || (pc.RecordLast? && ReachesEnd(s, pc, pc.slot) && s'.earned == s.earned + {pc.slot}))
  {
    var pc := s.threads[t].pc;
    if !pc.RecordLast? && !pc.RecordWrite? {
      RecordEdgesFrame(s, t, o);
    }
  }

  lemma {:induction false} VoteReadsFrame(s: State, t: ThreadId, o: Outcome)
    requires t in s.threads && (s.threads[t].pc.VoteRead? || s.threads[t].pc.VoteBalance?
        || s.threads[t].pc.VoteRecount?)
    ensures SameRows(s, StepVote(s, t, o))
  {
    EndFrame(s, t);
  }

  lemma {:induction false} FinaliseReadFrame(s: State, t: ThreadId, o: Outcome)
    requires t in s.threads && s.threads[t].pc.FinaliseRead?
    ensures SameRows(s, StepVote(s, t, o))
  {
    EndFrame(s, t);
  }

  lemma {:induction false} AdminReadsFrame(s: State, t: ThreadId, o: Outcome)
    requires t in s.threads && (s.threads[t].pc.AdminApproveRead? || s.threads[t].pc.AdminRejectRead?)
    ensures SameRows(s, StepVote(s, t, o))
  {
    EndFrame(s, t);
  }

  lemma {:induction false} VoteStepFrame(s: State, t: ThreadId, o: Outcome)
    requires t in s.threads
    ensures var s' := StepVote(s, t, o); var pc := s.threads[t].pc;
            && s'.submitted == s.submitted && s'.mirror == s.mirror && s'.earned == s.earned
            && (s'.subs == s.subs
                || (pc.VoteUpsert? && o == Good && pc.sub in s.subs
                    && s'.subs == s.subs[pc.sub := s.subs[pc.sub].(votes := UpsertVote(s.subs[pc.sub].votes, pc.row))])
                || (pc.RejectWrite? && o == Good && pc.sub in s.subs
                    && s'.subs == s.subs[pc.sub := s.subs[pc.sub].(status := Rejected)]))
            && (pc.RejectWrite? && o == Good && pc.sub in s.subs ==>
                  s'.subs == s.subs[pc.sub := s.subs[pc.sub].(status := Rejected)])
  {
    EndFrame(s, t);
    var pc := s.threads[t].pc;
    if pc.RejectWrite? {
      if pc.sub in s.subs {
        EndFrame(s.(subs := s.subs[pc.sub := s.subs[pc.sub].(status := Rejected)]), t);
      }
    } else if pc.VoteRead? || pc.VoteBalance? || pc.VoteRecount? {
      VoteReadsFrame(s, t, o);
    } else if pc.FinaliseRead? {
      FinaliseReadFrame(s, t, o);
    } else if pc.AdminApproveRead? || pc.AdminRejectRead? {
      AdminReadsFrame(s, t, o);
    }
  }

  lemma {:induction false} AdoptBadgeFrame(s: State, t: ThreadId, sub: SubmissionId, submitter: UserId,
      digest: Digest, badgeObject: Option<Digest>)
    requires t in s.threads
    ensures SameRows(s, AdoptBadge(s, t, sub, submitter, digest, badgeObject))
    ensures t in AdoptBadge(s, t, sub, submitter, digest, badgeObject).threads
  {
  }

  lemma {:induction false} ApproveWriteFrame(s: State, t: ThreadId, sub: SubmissionId, submitter: UserId,
      digest: Digest, badgeObject: Option<Digest>)
    requires t in s.threads
    ensures var s' := StepApproveWrite(s, t, sub, submitter, digest, badgeObject);
            && s'.submitted == s.submitted && s'.earned == s.earned
            && ((s'.mirror == s.mirror && s'.subs == s.subs)
                || (sub in s.subs && Credit(s.mirror, ApprovalEarning(sub, submitter), digest) == Some(s'.mirror)
                    && s'.subs == s.subs[sub := s.subs[sub].(status := Approved, rewardClaimed := true)]))
  {
    var e := ApprovalEarning(sub, submitter);
    var s1 := AdoptBadge(s, t, sub, submitter, digest, badgeObject);
    AdoptBadgeFrame(s, t, sub, submitter, digest, badgeObject);
    if sub in s.subs && Credit(s.mirror, e, digest).Some? {
      EndFrame(MarkApproved(RecordKey(s1, t, e, digest), sub), t);
    } else {
      EndFrame(s, t);
    }
  }

  lemma {:induction false} ApproveCallFrame(s: State, t: ThreadId, sub: SubmissionId, submitter: UserId,
      hasBadge: bool, o: Outcome)
    requires t in s.threads
    ensures SameRows(s, StepApproveCall(s, t, sub, submitter, hasBadge, o))
  {
    if o == Fails || ApprovalOutcome(s, sub, submitter, hasBadge).None? {
      EndFrame(s, t);
    } else {
      EndFrame(ApproveOnChain(s, t, sub, submitter, hasBadge), t);
    }
  }

  lemma {:induction false} ApproveStepFrame(s: State, t: ThreadId, o: Outcome)
    requires t in s.threads && (s.threads[t].pc.ApproveCheck? || s.threads[t].pc.ApproveCall?
        || s.threads[t].pc.ApproveWrite?)
    ensures var s' := StepApprove(s, t, o); var pc := s.threads[t].pc;
            && s'.submitted == s.submitted && s'.earned == s.earned
            && ((s'.mirror == s.mirror && s'.subs == s.subs)
                || (pc.ApproveWrite? && o == Good && pc.sub in s.subs
                    && Credit(s.mirror, ApprovalEarning(pc.sub, pc.submitter), pc.digest) == Some(s'.mirror)
                    && s'.subs == s.subs[pc.sub := s.subs[pc.sub].(status := Approved, rewardClaimed := true)]))
  {
    match s.threads[t].pc
    case ApproveCheck(_, _) =>
      EndFrame(s, t);
    case ApproveCall(sub, submitter, hasBadge) =>
      ApproveCallFrame(s, t, sub, submitter, hasBadge, o);
    case ApproveWrite(sub, submitter, digest, badgeObject) =>
      EndFrame(s, t);
      ApproveWriteFrame(s, t, sub, submitter, digest, badgeObject);
  }

  lemma {:induction false} StepFrame(s: State, t: ThreadId, o: Outcome)
    requires t in s.threads
    ensures var s' := StepThread(s, t, o); var pc := s.threads[t].pc;
            && s'.submitted == s.submitted
            && (s'.earned == s.earned || (pc.RecordLast? && ReachesEnd(s, pc, pc.slot) && s'.earned == s.earned
                + {pc.slot}))
            && (s'.mirror.ledger.Keys == s.mirror.ledger.Keys
                || (o == Good && Held(s.threads[t]).Some? && s'.mirror.ledger.Keys == s.mirror.ledger.Keys
                    + {Held(s.threads[t]).value}))
            && (s'.subs == s.subs
                || (o == Good && (pc.VoteUpsert? || pc.RejectWrite? || pc.ApproveWrite?) && pc.sub in s.subs
                    && s'.subs == s.subs[pc.sub :=
                         if pc.VoteUpsert? then s.subs[pc.sub].(votes := UpsertVote(s.subs[pc.sub].votes, pc.row))
                         else if pc.RejectWrite? then s.subs[pc.sub].(status := Rejected)
                         else s.subs[pc.sub].(status := Approved, rewardClaimed := true)]))
            && (pc.RejectWrite? && o == Good && pc.sub in s.subs ==>
                  s'.subs == s.subs[pc.sub := s.subs[pc.sub].(status := Rejected)])
  {
    var pc := s.threads[t].pc;
    if pc.MintCheck? || pc.MintCall? || pc.MintWrite? { MintStepFrame(s, t, o); }
    else if pc.BadgeCheck? || pc.BadgeCall? || pc.BadgeWrite? { BadgeStepFrame(s, t, o); }
    else if pc.RecordSeries? || pc.RecordFind? || pc.RecordLast? || pc.RecordWrite?
        || pc.RecordTrack? { RecordStepFrame(s, t, o); }
    else if pc.ApproveCheck? || pc.ApproveCall? || pc.ApproveWrite? { ApproveStepFrame(s, t, o); }
    else if !pc.Idle? { VoteStepFrame(s, t, o); }
  }

  ghost predicate HeldBy(s: State, t: ThreadId, k: InkKey) { t in s.threads && Held(s.threads[t]) == Some(k) }

  lemma {:induction false} LedgerGrowsByHolder(s: State, a: Action, k: InkKey)
    requires k in Apply(s, a).mirror.ledger && k !in s.mirror.ledger
    ensures a.Step? && a.outcome == Good && HeldBy(s, a.t, k)
  {
    if a.Step? && a.t in s.threads {
      StepFrame(s, a.t, a.outcome);
    }
  }
}
