/**
  Verdicts under interleaving.  The status of a submission is written without
  looking at it again, so a verdict survives exactly as long as no request past
  its check is still going to write another one.
 */
module VerdictRaces {
  import opened Wrappers
  import opened Fresh
  import opened Keys
  import opened InkStores
  import opened ReadingRules
  import opened Tally
  import opened RewardMachine
  import opened RewardInvariant
  import opened RewardSteps
  import opened RewardFrames
  import opened RewardEffects
  import opened RewardHistory

  /** A continuation of a run from state `s`. */
  function RunFrom(s: State, actions: seq<Action>): State
  {
    if actions == [] then s else Apply(RunFrom(s, actions[..|actions| - 1]), actions[|actions| - 1])
  }

  lemma {:induction false} RunIsRunFrom(actions: seq<Action>)
    ensures Run(actions) == RunFrom(INIT, actions)
    decreases |actions|
  {
    if actions != [] {
      RunIsRunFrom(actions[..|actions| - 1]);
    }
  }

  lemma {:induction false} RunFromConcat(s: State, first: seq<Action>, second: seq<Action>)
    ensures RunFrom(s, first + second) == RunFrom(RunFrom(s, first), second)
    decreases |second|
  {
    if second == [] {
      assert first + second == first;
    } else {
      var n := |second| - 1;
      assert (first + second)[..|first| + n] == first + second[..n];
      RunFromConcat(s, first, second[..n]);
    }
  }

  lemma {:induction false} RunFromOne(s: State, a: Action)
    ensures RunFrom(s, [a]) == Apply(s, a)
  {
    assert [a][..0] == [];
  }

  lemma {:induction false} InvFrom(s: State, actions: seq<Action>)
    requires Inv(s)
    ensures Inv(RunFrom(s, actions))
    decreases |actions|
  {
    if actions != [] {
      InvFrom(s, actions[..|actions| - 1]);
      ApplyInv(RunFrom(s, actions[..|actions| - 1]), actions[|actions| - 1]);
    }
  }

  predicate HasStatus(s: State, x: SubmissionId, status: SubmissionStatus) { x in s.subs && s.subs[x].status == status }

  /** Every continuation leaves the submission with this status. */
  ghost predicate StatusForGood(s: State, x: SubmissionId, status: SubmissionStatus)
  {
    forall actions :: HasStatus(RunFrom(s, actions), x, status)
  }

  // ----- The write of an approval -----

  lemma {:induction false} ApprovalWriteStep(s: State, t: ThreadId, x: SubmissionId, u: UserId, digest: Digest,
      badge: Option<Digest>)
    requires t in s.threads && s.threads[t].pc == ApproveWrite(x, u, digest, badge)
    ensures Apply(s, Step(t, Good)) == StepApproveWrite(s, t, x, u, digest, badge)
  {
  }

  /** With a passport to credit, it approves whatever the status was and pays 50 INK. */
  lemma {:induction false} ApprovalWrites(s: State, t: ThreadId, x: SubmissionId, u: UserId, digest: Digest,
      badge: Option<Digest>)
    requires t in s.threads && x in s.subs && u in s.mirror.inkEarned
    ensures var s' := StepApproveWrite(s, t, x, u, digest, badge);
            && s'.subs == s.subs[x := s.subs[x].(status := Approved, rewardClaimed := true)]
            && s'.threads == s.threads - {t} && s'.chain == s.chain
            && BalanceOf(s'.mirror, u) == BalanceOf(s.mirror, u) + 50
  {
    AdoptedCore(s, t, x, u, digest, badge);
    var s1 := AdoptBadge(s, t, x, u, digest, badge);
    var s2 := MarkApproved(RecordKey(s1, t, ApprovalEarning(x, u), digest), x);
    assert s2.threads - {t} == s.threads - {t};
  }

  lemma {:induction false} AdoptedCore(s: State, t: ThreadId, x: SubmissionId, u: UserId, digest: Digest,
      badge: Option<Digest>)
    requires t in s.threads
    ensures var s1 := AdoptBadge(s, t, x, u, digest, badge);
            && s1.subs == s.subs && s1.mirror == s.mirror && s1.chain == s.chain
            && t in s1.threads && s1.threads - {t} == s.threads - {t}
  {
    var s1 := AdoptBadge(s, t, x, u, digest, badge);
    assert s1.threads == s.threads || s1.threads == s.threads[t := s1.threads[t]];
  }

  // ----- APPROVED -----

  /** An APPROVED submission loses that status in a step exactly when a thread past its check writes REJECTED. */
  lemma {:induction false} ApprovalLostOnlyToReject(s: State, a: Action, x: SubmissionId)
    requires HasStatus(s, x, Approved)
    ensures x in Apply(s, a).subs
    ensures Apply(s, a).subs[x].status != Approved
            <==> a.Step? && a.outcome == Good && a.t in s.threads && s.threads[a.t].pc == RejectWrite(x)
  {
    if a.Step? && a.t in s.threads {
      StepFrame(s, a.t, a.outcome);
    }
  }

  ghost predicate RejectPending(s: State, x: SubmissionId)
  {
    exists t :: t in s.threads && s.threads[t].pc == RejectWrite(x)
  }

  lemma {:induction false} NoNewReject(s: State, a: Action, x: SubmissionId)
    requires !IsPending(s, x) && !RejectPending(s, x)
    ensures !RejectPending(Apply(s, a), x)
  {
    if a.Step? && a.t in s.threads {
      StepEffect(s, a.t, a.outcome);
    }
    var s' := Apply(s, a);
    forall t | t in s'.threads ensures s'.threads[t].pc != RejectWrite(x) {
      if t in s.threads && s'.threads[t] == s.threads[t] {
        assert s.threads[t].pc != RejectWrite(x);
      }
    }
  }

  lemma {:induction false} ApprovalKept(s: State, x: SubmissionId, actions: seq<Action>)
    requires HasStatus(s, x, Approved) && !RejectPending(s, x)
    ensures HasStatus(RunFrom(s, actions), x, Approved) && !RejectPending(RunFrom(s, actions), x)
    decreases |actions|
  {
    if actions != [] {
      var n := |actions| - 1;
      ApprovalKept(s, x, actions[..n]);
      var before := RunFrom(s, actions[..n]);
      ApprovalLostOnlyToReject(before, actions[n], x);
      NoNewReject(before, actions[n], x);
    }
  }

  /** APPROVED is kept by every continuation if and only if no live thread is about to write REJECTED. */
  lemma {:induction false} ApprovedForGoodExactly(s: State, x: SubmissionId)
    requires HasStatus(s, x, Approved)
    ensures StatusForGood(s, x, Approved) <==> !RejectPending(s, x)
  {
    if RejectPending(s, x) {
      var t :| t in s.threads && s.threads[t].pc == RejectWrite(x);
      RunFromOne(s, Step(t, Good));
      ApprovalLostOnlyToReject(s, Step(t, Good), x);
      assert !HasStatus(RunFrom(s, [Step(t, Good)]), x, Approved);
    } else {
      forall actions ensures HasStatus(RunFrom(s, actions), x, Approved) {
        ApprovalKept(s, x, actions);
      }
    }
  }

  // ----- REJECTED -----

  predicate WritesApproval(s: State, a: Action, x: SubmissionId)
  {
    && a.Step? && a.outcome == Good && a.t in s.threads
    && s.threads[a.t].pc.ApproveWrite? && s.threads[a.t].pc.sub == x
        && s.threads[a.t].pc.submitter in s.mirror.inkEarned
  }

  /**
    A REJECTED submission loses that status in a step exactly when an approval
    past its chain call writes its transaction; it is then APPROVED and paid.
   */
  lemma {:induction false} RejectionLostOnlyToApproval(s: State, a: Action, x: SubmissionId)
    requires HasStatus(s, x, Rejected)
    ensures x in Apply(s, a).subs
    ensures Apply(s, a).subs[x].status != Rejected <==> WritesApproval(s, a, x)
    ensures WritesApproval(s, a, x) ==>
              var u := s.threads[a.t].pc.submitter; var s' := Apply(s, a);
              HasStatus(s', x, Approved) && s'.subs[x].rewardClaimed && BalanceOf(s'.mirror, u)
                  == BalanceOf(s.mirror, u) + 50
  {
    if a.Step? && a.t in s.threads {
      StepFrame(s, a.t, a.outcome);
      var pc := s.threads[a.t].pc;
      if pc.ApproveWrite? && a.outcome == Good {
        ApprovalWriteStep(s, a.t, pc.sub, pc.submitter, pc.digest, pc.badgeObject);
        if pc.sub in s.subs && pc.submitter in s.mirror.inkEarned {
          ApprovalWrites(s, a.t, pc.sub, pc.submitter, pc.digest, pc.badgeObject);
        }
      }
    }
  }

  /** The contributor badge is mirrored, not minted yet, or held by a thread that will mirror it. */
  ghost predicate BadgeWithinReach(s: State, u: UserId)
  {
    var b := ContributorBadge(u);
    b in BadgeKeys(s.badgeRows) || b !in s.chain.badges || exists t: ThreadId :: BadgeNow(s, t) == Some(b)
  }

  /** This thread can still bring an approval of `x` through. */
  ghost predicate CanApprove(s: State, t: ThreadId, x: SubmissionId)
  {
    && t in s.threads
    && var pc := s.threads[t].pc;
       || (pc.ApproveWrite? && pc.sub == x)
       || (pc.ApproveCall? && pc.sub == x && ApprovalOutcome(s, x, pc.submitter, pc.alreadyHasBadge).Some?)
       || (pc.ApproveCheck? && pc.sub == x && Approval(pc.submitter, x) !in s.chain.registry
           && BadgeWithinReach(s, pc.submitter))
  }

  ghost predicate ApprovalPossible(s: State, x: SubmissionId) { exists t :: CanApprove(s, t, x) }

  lemma {:induction false} OutcomeExactly(s: State, x: SubmissionId, u: UserId, hasBadge: bool)
    ensures ApprovalOutcome(s, x, u, hasBadge).Some?
            <==> Approval(u, x) !in s.chain.registry && (hasBadge || ContributorBadge(u) !in s.chain.badges)
  {
  }

  lemma {:induction false} ReachOnlyShrinks(s: State, t: ThreadId, o: Outcome, u: UserId)
    requires t in s.threads && BadgeWithinReach(StepThread(s, t, o), u)
    ensures BadgeWithinReach(s, u)
  {
    var s', b := StepThread(s, t, o), ContributorBadge(u);
    StepEffect(s, t, o);
    if b in BadgeKeys(s'.badgeRows) && b !in BadgeKeys(s.badgeRows) {
      BadgeRowAppended(s, t, s', b);
    } else if w: ThreadId :| BadgeNow(s', w) == Some(b) {
      assert w != t ==> BadgeNow(s, w) == Some(b);
    }
  }

  /** Another thread's chances never grow. */
  lemma {:induction false} OthersChances(s: State, t: ThreadId, o: Outcome, u: ThreadId, x: SubmissionId)
    requires t in s.threads && u != t && CanApprove(StepThread(s, t, o), u, x)
    ensures CanApprove(s, u, x)
  {
    var s' := StepThread(s, t, o);
    StepEffect(s, t, o);
    var pc := s.threads[u].pc;
    if pc.ApproveCall? {
      OutcomeExactly(s, x, pc.submitter, pc.alreadyHasBadge);
      OutcomeExactly(s', x, pc.submitter, pc.alreadyHasBadge);
    } else if pc.ApproveCheck? {
      ReachOnlyShrinks(s, t, o, pc.submitter);
    }
  }

  /** A thread that can approve after its step could before. */
  lemma {:induction false} OwnChances(s: State, t: ThreadId, o: Outcome, x: SubmissionId)
    requires t in s.threads && !IsPending(s, x) && CanApprove(StepThread(s, t, o), t, x)
    ensures CanApprove(s, t, x)
  {
    var s' := StepThread(s, t, o);
    StepEffect(s, t, o);
    var next := s'.threads[t].pc;
    if next.ApproveCall? {
      OutcomeExactly(s', x, next.submitter, next.alreadyHasBadge);
    }
  }

  lemma {:induction false} NoNewApproval(s: State, a: Action, x: SubmissionId)
    requires !IsPending(s, x) && x in s.subs && !ApprovalPossible(s, x)
    ensures !ApprovalPossible(Apply(s, a), x)
  {
    var s' := Apply(s, a);
    forall t: ThreadId ensures !CanApprove(s', t, x) {
      if CanApprove(s', t, x) {
        if a.Step? && a.t in s.threads {
          if t == a.t { OwnChances(s, t, a.outcome, x); } else { OthersChances(s, a.t, a.outcome, t, x); }
        } else {
          IdleChances(s, a, t, x);
        }
      }
    }
  }

  lemma {:induction false} IdleThreads(s: State, a: Action, t: ThreadId)
    requires !(a.Step? && a.t in s.threads)
    ensures Apply(s, a).chain == s.chain && Apply(s, a).badgeRows == s.badgeRows
    ensures t in Apply(s, a).threads && !(a.Spawn? && a.t == t) ==>
              t in s.threads && s.threads[t] == Apply(s, a).threads[t]
    ensures t in Apply(s, a).threads && t !in s.threads ==>
              a.Spawn? && Apply(s, a).threads[t] == Thread(FirstPc(a.request), [])
  {
    if a.Crash? && a.t in s.threads {
      assert Apply(s, a) == End(s, a.t);
    } else if !a.Spawn? {
      assert Apply(s, a).threads == s.threads;
    }
  }

  lemma {:induction false} IdleChances(s: State, a: Action, t: ThreadId, x: SubmissionId)
    requires CanApprove(Apply(s, a), t, x) && !(a.Step? && a.t in s.threads)
    ensures CanApprove(s, t, x)
  {
    var s' := Apply(s, a);
    IdleThreads(s, a, t);
    var pc := s'.threads[t].pc;
    if t in s.threads && pc.ApproveCheck? {
      var b := ContributorBadge(pc.submitter);
      if w: ThreadId :| BadgeNow(s', w) == Some(b) {
        IdleThreads(s, a, w);
        assert BadgeNow(s, w) == Some(b);
      }
    }
  }

  lemma {:induction false} RejectionKept(s: State, x: SubmissionId, actions: seq<Action>)
    requires HasStatus(s, x, Rejected) && !ApprovalPossible(s, x)
    ensures HasStatus(RunFrom(s, actions), x, Rejected) && !ApprovalPossible(RunFrom(s, actions), x)
    decreases |actions|
  {
    if actions != [] {
      var n := |actions| - 1;
      RejectionKept(s, x, actions[..n]);
      var before := RunFrom(s, actions[..n]);
      RejectionLostOnlyToApproval(before, actions[n], x);
      if WritesApproval(before, actions[n], x) {
        assert CanApprove(before, actions[n].t, x);
      }
      NoNewApproval(before, actions[n], x);
    }
  }

  // Bringing an approval through, from its last step backwards.

  ghost predicate RunApproves(s: State, actions: seq<Action>, x: SubmissionId) { HasStatus(RunFrom(s, actions), x,
      Approved) }

  lemma {:induction false} AfterOne(s: State, a: Action, rest: seq<Action>, x: SubmissionId)
    requires RunApproves(Apply(s, a), rest, x)
    ensures RunApproves(s, [a] + rest, x)
  {
    RunFromOne(s, a);
    RunFromConcat(s, [a], rest);
  }

  lemma {:induction false} FinishWrite(s: State, t: ThreadId, x: SubmissionId) returns (actions: seq<Action>)
    requires t in s.threads && x in s.subs && s.threads[t].pc.ApproveWrite? && s.threads[t].pc.sub == x
    ensures RunApproves(s, actions, x)
  {
    var pc := s.threads[t].pc;
    var s1 := Apply(s, NewPassport(pc.submitter));
    ApprovalWriteStep(s1, t, x, pc.submitter, pc.digest, pc.badgeObject);
    ApprovalWrites(s1, t, x, pc.submitter, pc.digest, pc.badgeObject);
    RunFromOne(s1, Step(t, Good));
    AfterOne(s, NewPassport(pc.submitter), [Step(t, Good)], x);
    actions := [NewPassport(pc.submitter)] + [Step(t, Good)];
  }

  lemma {:induction false} FinishCall(s: State, t: ThreadId, x: SubmissionId) returns (actions: seq<Action>)
    requires x in s.subs && CanApprove(s, t, x) && s.threads[t].pc.ApproveCall?
    ensures RunApproves(s, actions, x)
  {
    actions := FinishWrite(Apply(s, Step(t, Good)), t, x);
    AfterOne(s, Step(t, Good), actions, x);
    actions := [Step(t, Good)] + actions;
  }

  lemma {:induction false} CheckStep(s: State, t: ThreadId, x: SubmissionId, u: UserId)
    requires t in s.threads && s.threads[t].pc == ApproveCheck(x, u)
    ensures Apply(s, Step(t, Good)) == Goto(s, t, ApproveCall(x, u, ContributorBadge(u) in BadgeKeys(s.badgeRows)))
  {
  }

  lemma {:induction false} FinishCheck(s: State, t: ThreadId, x: SubmissionId, u: UserId) returns (actions: seq<Action>)
    requires t in s.threads && x in s.subs && s.threads[t].pc == ApproveCheck(x, u)
        && Approval(u, x) !in s.chain.registry
    requires ContributorBadge(u) in BadgeKeys(s.badgeRows) || ContributorBadge(u) !in s.chain.badges
    ensures RunApproves(s, actions, x)
  {
    var hasBadge := ContributorBadge(u) in BadgeKeys(s.badgeRows);
    CheckStep(s, t, x, u);
    var s1 := Goto(s, t, ApproveCall(x, u, hasBadge));
    OutcomeExactly(s1, x, u, hasBadge);
    actions := FinishCall(s1, t, x);
    AfterOne(s, Step(t, Good), actions, x);
    actions := [Step(t, Good)] + actions;
  }

  lemma {:induction false} ApprovalWriterStep(s: State, w: ThreadId, y: SubmissionId, u: UserId, digest: Digest,
      id: Digest)
    requires w in s.threads && s.threads[w].pc == ApproveWrite(y, u, digest, Some(id))
    requires y in s.subs && u in s.mirror.inkEarned
    ensures var s1 := Apply(s, Step(w, Good));
            && OthersKept(s, w, s1) && s1.chain == s.chain && s1.subs.Keys == s.subs.Keys
            && ContributorBadge(u) in BadgeKeys(s1.badgeRows)
  {
    ApprovalWriteStep(s, w, y, u, digest, Some(id));
    ApprovalWrites(s, w, y, u, digest, Some(id));
    StepEffect(s, w, Good);
    AdoptedBadgeRow(s, w, y, u, digest, id);
  }

  lemma {:induction false} AdoptedBadgeRow(s: State, w: ThreadId, y: SubmissionId, u: UserId, digest: Digest,
      id: Digest)
    requires w in s.threads && y in s.subs && u in s.mirror.inkEarned
    ensures ContributorBadge(u) in BadgeKeys(StepApproveWrite(s, w, y, u, digest, Some(id)).badgeRows)
  {
    var s1 := AdoptBadge(s, w, y, u, digest, Some(id));
    if ContributorBadge(u) !in BadgeKeys(s.badgeRows) {
      BadgeKeysAppend(s.badgeRows, BadgeRow(ContributorBadge(u), id));
    }
    assert StepApproveWrite(s, w, y, u, digest, Some(id)).badgeRows == s1.badgeRows;
  }

  lemma {:induction false} FinishAfterBadgeWrite(s: State, t: ThreadId, x: SubmissionId, u: UserId, w: ThreadId)
    returns (actions: seq<Action>)
    requires t in s.threads && x in s.subs && s.threads[t].pc == ApproveCheck(x, u)
    requires Approval(u, x) !in s.chain.registry
    requires w in s.threads && s.threads[w].pc.BadgeWrite? && s.threads[w].pc.badge == ContributorBadge(u)
    ensures RunApproves(s, actions, x)
  {
    var pc := s.threads[w].pc;
    BadgeKeysAppend(s.badgeRows, BadgeRow(pc.badge, pc.objectId));
    actions := FinishCheck(Apply(s, Step(w, Good)), t, x, u);
    AfterOne(s, Step(w, Good), actions, x);
    actions := [Step(w, Good)] + actions;
  }

  lemma {:induction false} FinishAfterApprovalWrite(s: State, t: ThreadId, x: SubmissionId, u: UserId, w: ThreadId)
    returns (actions: seq<Action>)
    requires t in s.threads && x in s.subs && s.threads[t].pc == ApproveCheck(x, u) && u in s.mirror.inkEarned
    requires Approval(u, x) !in s.chain.registry && w in s.threads
    requires var pc := s.threads[w].pc;
             pc.ApproveWrite? && pc.sub in s.subs && pc.submitter == u && pc.badgeObject.Some?
    ensures RunApproves(s, actions, x)
  {
    var pc := s.threads[w].pc;
    ApprovalWriterStep(s, w, pc.sub, u, pc.digest, pc.badgeObject.value);
    actions := FinishCheck(Apply(s, Step(w, Good)), t, x, u);
    AfterOne(s, Step(w, Good), actions, x);
    actions := [Step(w, Good)] + actions;
  }

  /** A new passport changes nothing else. */
  function WithPassport(s: State, u: UserId): State
  {
    if u in s.mirror.inkEarned then s else s.(mirror := s.mirror.(inkEarned := s.mirror.inkEarned[u := 0]))
  }

  lemma {:induction false} FinishAfterPassport(s: State, t: ThreadId, x: SubmissionId, u: UserId, w: ThreadId)
    returns (actions: seq<Action>)
    requires t in s.threads && x in s.subs && s.threads[t].pc == ApproveCheck(x, u)
    requires Approval(u, x) !in s.chain.registry && w in s.threads
    requires var pc := s.threads[w].pc;
             pc.ApproveWrite? && pc.sub in s.subs && pc.submitter == u && pc.badgeObject.Some?
    ensures RunApproves(s, actions, x)
  {
    actions := FinishAfterApprovalWrite(WithPassport(s, u), t, x, u, w);
    AfterOne(s, NewPassport(u), actions, x);
    actions := [NewPassport(u)] + actions;
  }

  /** Let the holder of the badge write its row, then go on. */
  lemma {:induction false} FinishAfterHolder(s: State, t: ThreadId, x: SubmissionId, u: UserId, w: ThreadId)
    returns (actions: seq<Action>)
    requires Inv(s) && t in s.threads && x in s.subs && s.threads[t].pc == ApproveCheck(x, u)
    requires Approval(u, x) !in s.chain.registry && BadgeNow(s, w) == Some(ContributorBadge(u))
    ensures RunApproves(s, actions, x)
  {
    if s.threads[w].pc.BadgeWrite? {
      actions := FinishAfterBadgeWrite(s, t, x, u, w);
    } else {
      actions := FinishAfterPassport(s, t, x, u, w);
    }
  }

  lemma {:induction false} BringThrough(s: State, t: ThreadId, x: SubmissionId) returns (actions: seq<Action>)
    requires Inv(s) && x in s.subs && CanApprove(s, t, x)
    ensures RunApproves(s, actions, x)
  {
    var pc := s.threads[t].pc;
    if pc.ApproveWrite? {
      actions := FinishWrite(s, t, x);
    } else if pc.ApproveCall? {
      actions := FinishCall(s, t, x);
    } else if ContributorBadge(pc.submitter) in BadgeKeys(s.badgeRows)
        || ContributorBadge(pc.submitter) !in s.chain.badges {
      actions := FinishCheck(s, t, x, pc.submitter);
    } else {
      var w: ThreadId :| BadgeNow(s, w) == Some(ContributorBadge(pc.submitter));
      actions := FinishAfterHolder(s, t, x, pc.submitter, w);
    }
  }

  /**
    REJECTED is kept by every continuation if and only if no live thread can
    still bring an approval through: past its chain call, at a call the chain
    would accept, or at its check with the key unused and the badge within reach.
   */
  lemma {:induction false} RejectedForGoodExactly(s: State, x: SubmissionId)
    requires Inv(s) && HasStatus(s, x, Rejected)
    ensures StatusForGood(s, x, Rejected) <==> !ApprovalPossible(s, x)
  {
    if ApprovalPossible(s, x) {
      var t :| CanApprove(s, t, x);
      var actions := BringThrough(s, t, x);
      assert !HasStatus(RunFrom(s, actions), x, Rejected);
    } else {
      forall actions ensures HasStatus(RunFrom(s, actions), x, Rejected) {
        RejectionKept(s, x, actions);
      }
    }
  }
}
