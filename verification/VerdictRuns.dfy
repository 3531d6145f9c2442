/** Two runs in which a verdict is overwritten, step by step from the empty system. */
module VerdictRuns {
  import opened Wrappers
  import opened Keys
  import opened InkStores
  import opened Tally
  import opened RewardMachine
  import opened RewardFrames
  import opened RewardEffects
  import opened VerdictRaces

  lemma {:induction false} RunSnoc(actions: seq<Action>, a: Action)
    ensures Run(actions + [a]) == Apply(Run(actions), a)
  {
    assert (actions + [a])[..|actions|] == actions;
  }

  /** Two admins act on the same submission and both read it while PENDING. */
  const RACE_SETUP: seq<Action> := [
    NewPassport("u"), NewSubmission("x", "u", 0), Spawn(1, AdminApprove("x")), Spawn(2, AdminReject("x"))]
  const BOTH_READ: seq<Action> := RACE_SETUP + [Step(1, Good)] + [Step(2, Good)]
  /** The approval has gone through on chain; both writes are still to come. */
  const BOTH_PENDING: seq<Action> := BOTH_READ + [Step(1, Good)] + [Step(1, Good)]

  const APPROVE_REJECT_RACE: seq<Action> := BOTH_PENDING + [Step(1, Good)] + [Step(2, Good)]
  const REJECT_APPROVE_RACE: seq<Action> := BOTH_PENDING + [Step(2, Good)] + [Step(1, Good)]

  /** One PENDING submission by a user with a passport and no INK. */
  predicate RaceReady(s: State)
  {
    s.subs == map["x" := Submission("u", Pending, false, [], 0)] && s.mirror == Mirror(map[], map[], map["u" := 0])
  }

  predicate At(s: State, first: Pc, second: Pc)
  {
    1 in s.threads && 2 in s.threads && s.threads[1].pc == first && s.threads[2].pc == second
  }

  lemma {:induction false} RaceSetup()
    ensures var s := Run(RACE_SETUP);
            && RaceReady(s) && s.badgeRows == [] && s.chain == INIT.chain
            && At(s, AdminApproveRead("x"), AdminRejectRead("x"))
  {
    var a, b, c, d := NewPassport("u"), NewSubmission("x", "u", 0), Spawn(1, AdminApprove("x")), Spawn(2,
        AdminReject("x"));
    RunSnoc([], a);
    RunSnoc([] + [a], b);
    RunSnoc([] + [a] + [b], c);
    RunSnoc([] + [a] + [b] + [c], d);
    assert RACE_SETUP == [] + [a] + [b] + [c] + [d];
    SpawnStep(Run([] + [a] + [b]), 1, AdminApprove("x"));
    SpawnStep(Run([] + [a] + [b] + [c]), 2, AdminReject("x"));
  }

  lemma {:induction false} SpawnStep(s: State, t: ThreadId, r: Request)
    requires t !in s.threads && !r.UpsertRequest?
    ensures Apply(s, Spawn(t, r)) == s.(threads := s.threads[t := Thread(FirstPc(r), [])])
  {
  }

  /** Both pass the status check. */
  lemma {:induction false} BothRead()
    ensures var s := Run(BOTH_READ);
            && RaceReady(s) && s.badgeRows == [] && s.chain == INIT.chain
            && At(s, ApproveCheck("x", "u"), RejectWrite("x"))
  {
    RaceSetup();
    var s := Run(RACE_SETUP);
    RunSnoc(RACE_SETUP, Step(1, Good));
    RunSnoc(RACE_SETUP + [Step(1, Good)], Step(2, Good));
    ApproveReadStep(s, 1, "x");
    RejectReadStep(Goto(s, 1, ApproveCheck("x", "u")), 2, "x");
  }

  lemma {:induction false} ApproveReadStep(s: State, t: ThreadId, x: SubmissionId)
    requires t in s.threads && s.threads[t].pc == AdminApproveRead(x) && IsPending(s, x)
    ensures Apply(s, Step(t, Good)) == Goto(s, t, ApproveCheck(x, s.subs[x].submitter))
  {
  }

  lemma {:induction false} RejectReadStep(s: State, t: ThreadId, x: SubmissionId)
    requires t in s.threads && s.threads[t].pc == AdminRejectRead(x) && IsPending(s, x)
    ensures Apply(s, Step(t, Good)) == Goto(s, t, RejectWrite(x))
  {
  }

  lemma {:induction false} RejectWriteStep(s: State, t: ThreadId, x: SubmissionId)
    requires t in s.threads && s.threads[t].pc == RejectWrite(x) && x in s.subs
    ensures var s' := Apply(s, Step(t, Good));
            && s'.subs == s.subs[x := s.subs[x].(status := Rejected)] && s'.mirror == s.mirror
            && s'.threads == s.threads - {t}
  {
  }

  /** The chain accepts the approval. */
  lemma {:induction false} BothPending()
    ensures var s := Run(BOTH_PENDING);
            && RaceReady(s) && At(s, ApproveWrite("x", "u", 0, Some(1)), RejectWrite("x"))
  {
    BothRead();
    var s := Run(BOTH_READ);
    RunSnoc(BOTH_READ, Step(1, Good));
    RunSnoc(BOTH_READ + [Step(1, Good)], Step(1, Good));
    assert BadgeKeys(s.badgeRows) == {};
    CheckStep(s, 1, "x", "u");
    RaceCall(Goto(s, 1, ApproveCall("x", "u", false)));
  }

  lemma {:induction false} RaceCall(s: State)
    requires RaceReady(s) && s.chain == INIT.chain && At(s, ApproveCall("x", "u", false), RejectWrite("x"))
    ensures var s' := Apply(s, Step(1, Good)); RaceReady(s') && At(s', ApproveWrite("x", "u", 0, Some(1)),
        RejectWrite("x"))
  {
    OutcomeExactly(s, "x", "u", false);
    OnChainThread(s, 1, "x", "u", false);
  }

  /**
    The status guard does not stop concurrent requests: this run pays the
    submitter 50 INK and leaves the submission REJECTED.
   */
  lemma {:induction false} RejectOverwritesApproval()
    ensures HasStatus(Run(BOTH_PENDING + [Step(1, Good)]), "x", Approved)
    ensures var s := Run(APPROVE_REJECT_RACE);
            HasStatus(s, "x", Rejected) && s.subs["x"].rewardClaimed && BalanceOf(s.mirror, "u") == 50
  {
    BothPending();
    var s := Run(BOTH_PENDING);
    RunSnoc(BOTH_PENDING, Step(1, Good));
    RunSnoc(BOTH_PENDING + [Step(1, Good)], Step(2, Good));
    ApprovalWriteStep(s, 1, "x", "u", 0, Some(1));
    ApprovalWrites(s, 1, "x", "u", 0, Some(1));
    RejectWriteStep(Apply(s, Step(1, Good)), 2, "x");
  }

  /** The same two requests the other way round: REJECTED first, then APPROVED and paid. */
  lemma {:induction false} ApproveOverwritesRejection()
    ensures HasStatus(Run(BOTH_PENDING + [Step(2, Good)]), "x", Rejected)
    ensures var s := Run(REJECT_APPROVE_RACE);
            HasStatus(s, "x", Approved) && s.subs["x"].rewardClaimed && BalanceOf(s.mirror, "u") == 50
  {
    BothPending();
    var s := Run(BOTH_PENDING);
    RunSnoc(BOTH_PENDING, Step(2, Good));
    RunSnoc(BOTH_PENDING + [Step(2, Good)], Step(1, Good));
    RejectWriteStep(s, 2, "x");
    var s1 := Apply(s, Step(2, Good));
    ApprovalWriteStep(s1, 1, "x", "u", 0, Some(1));
    ApprovalWrites(s1, 1, "x", "u", 0, Some(1));
  }
}
