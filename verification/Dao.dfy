/**
  The submission service with one request at a time: what a verdict says about
  the votes.  The voter's balance, the clock and the success of the approval's
  chain call and transaction are inputs of each request.
 */
module Dao {
  import opened Wrappers
  import opened Tally

  type Submissions = map<string, Submission>

  datatype Error = NotFound | AlreadyFinalised | WindowClosed | NoInk | ApprovalFailed

  datatype Op =
    | Create(x: string, submitter: string, votingEndsAt: int)
    | CastVote(x: string, voter: string, vote: int, balance: nat, now: int, chainOk: bool)
    | AdminApprove(x: string, chainOk: bool)
    | AdminReject(x: string)

  /** `_executeApproval`: the row changes only if the chain call and the transaction succeed. */
  function Executed(subs: Submissions, x: string, chainOk: bool): Submissions
    requires x in subs
  {
    if chainOk then subs[x := subs[x].(status := Approved, rewardClaimed := true)] else subs
  }

  function Reject(subs: Submissions, x: string): Submissions
    requires x in subs
  {
    subs[x := subs[x].(status := Rejected)]
  }

  function Finalised(subs: Submissions, x: string, votes: seq<VoteRow>, force: Option<bool>,
      chainOk: bool): Submissions
  {
    if x !in subs || subs[x].status != Pending then subs
    else if (if force.Some? then force.value else LazyApproves(votes)) then Executed(subs, x, chainOk)
    else Reject(subs, x)
  }

  function WithVote(subs: Submissions, x: string, row: VoteRow): Submissions
    requires x in subs
  {
    subs[x := subs[x].(votes := UpsertVote(subs[x].votes, row))]
  }

  function VoteOn(subs: Submissions, op: Op): Submissions
    requires op.CastVote?
  {
    var x := op.x;
    if x !in subs || subs[x].status != Pending then subs
    else if op.now > subs[x].votingEndsAt then Finalised(subs, x, subs[x].votes, None, op.chainOk)
    else if op.balance < MIN_INK_TO_VOTE then subs
    else
      var subs' := WithVote(subs, x, VoteRow(op.voter, op.vote, op.balance));
      var votes := subs'[x].votes;
      if TallyOf(votes, false).finalisable then Finalised(subs', x, votes, Some(AutoApproves(votes)), op.chainOk)
      else subs'
  }

  function Apply(subs: Submissions, op: Op): Submissions
  {
    match op
    case Create(x, submitter, ends) =>
      if x in subs then subs else subs[x := Submission(submitter, Pending, false, [], ends)]
    case CastVote(_, _, _, _, _, _) => VoteOn(subs, op)
    case AdminApprove(x, chainOk) =>
      if x !in subs || subs[x].status != Pending then subs else Executed(subs, x, chainOk)
    case AdminReject(x) =>
      if x !in subs || subs[x].status != Pending then subs else Reject(subs, x)
  }

  function Run(ops: seq<Op>): Submissions
  {
    if ops == [] then map[] else Apply(Run(ops[..|ops| - 1]), ops[|ops| - 1])
  }

  // ----- What a request promises -----

  predicate ApprovingTally(votes: seq<VoteRow>)
  {
    TotalInk(votes) >= 500 && 5 * ApproveInk(votes) >= 3 * TotalInk(votes)
  }

  predicate RejectingTally(votes: seq<VoteRow>)
  {
    TotalInk(votes) >= 500 && 5 * ApproveInk(votes) < 2 * TotalInk(votes)
  }

  predicate Open(subs: Submissions, x: string) { x in subs && subs[x].status == Pending }

  /** Other submissions are left alone, and so are this one's submitter and deadline. */
  ghost predicate OnlyThis(subs: Submissions, subs': Submissions, x: string)
  {
    && subs'.Keys == subs.Keys && (forall y :: y in subs && y != x ==> subs'[y] == subs[y])
    && (x in subs ==> subs'[x].submitter == subs[x].submitter && subs'[x].votingEndsAt == subs[x].votingEndsAt)
  }

  ghost predicate ApprovedNow(sub: Submission) { sub.status == Approved && sub.rewardClaimed }

  ghost predicate RejectedNow(sub: Submission, was: Submission)
  {
    sub.status == Rejected && sub.rewardClaimed == was.rewardClaimed
  }

  ghost predicate StillOpen(sub: Submission, was: Submission)
  {
    sub.status == Pending && sub.rewardClaimed == was.rewardClaimed
  }

  /** The row after a tally that is approving, rejecting or neither; an approval can fail and change nothing. */
  ghost predicate Resolved(sub: Submission, was: Submission, approving: bool, rejecting: bool, chainOk: bool)
  {
    if approving then (if chainOk then ApprovedNow(sub) else StillOpen(sub, was))
    else if rejecting then RejectedNow(sub, was)
    else StillOpen(sub, was)
  }

  /** A late vote is not stored, but settles the row; a vote in time with INK is stored and settles a decisive tally. */
  ghost predicate VoteRule(subs: Submissions, subs': Submissions, op: Op)
    requires op.CastVote?
  {
    var x := op.x;
    && OnlyThis(subs, subs', x)
    && (!Open(subs, x) ==> subs' == subs)
    && (Open(subs, x) && op.now > subs[x].votingEndsAt ==>
          var yes := ApprovingTally(subs[x].votes);
          subs'[x].votes == subs[x].votes && Resolved(subs'[x], subs[x], yes, !yes, op.chainOk))
    && (Open(subs, x) && op.now <= subs[x].votingEndsAt && op.balance == 0 ==> subs' == subs)
    && (Open(subs, x) && op.now <= subs[x].votingEndsAt && op.balance > 0 ==>
          var votes := UpsertVote(subs[x].votes, VoteRow(op.voter, op.vote, op.balance));
          && subs'[x].votes == votes
          && Resolved(subs'[x], subs[x], ApprovingTally(votes), RejectingTally(votes), op.chainOk))
  }

  /** The vote reaches the tally. */
  ghost predicate Counted(subs: Submissions, op: Op)
    requires op.CastVote?
  {
    Open(subs, op.x) && op.now <= subs[op.x].votingEndsAt && op.balance > 0
  }

  ghost predicate Late(subs: Submissions, op: Op)
    requires op.CastVote?
  {
    Open(subs, op.x) && op.now > subs[op.x].votingEndsAt
  }

  /** What the caller is told. */
  ghost predicate VoteReply(subs: Submissions, op: Op, r: Result<bool, Error>)
    requires op.CastVote?
  {
    && (r == Err(NotFound) <==> op.x !in subs)
    && (r == Err(AlreadyFinalised) <==> op.x in subs && subs[op.x].status != Pending)
    && (r == Err(NoInk) <==> Open(subs, op.x) && op.now <= subs[op.x].votingEndsAt && op.balance == 0)
    && (Late(subs, op) ==> r == Err(if ApprovingTally(subs[op.x].votes) && !op.chainOk then ApprovalFailed
                                    else WindowClosed))
    && (Counted(subs, op) ==>
          var votes := UpsertVote(subs[op.x].votes, VoteRow(op.voter, op.vote, op.balance));
          && (r == Err(ApprovalFailed) <==> ApprovingTally(votes) && !op.chainOk)
          && (r == Ok(true) <==> (ApprovingTally(votes) && op.chainOk) || RejectingTally(votes))
          && (r == Ok(false) <==> !ApprovingTally(votes) && !RejectingTally(votes)))
  }

  lemma {:induction false} VoteFollows(subs: Submissions, op: Op)
    requires op.CastVote?
    ensures VoteRule(subs, VoteOn(subs, op), op)
  {
    if Late(subs, op) {
      AutoAndLazyAgree(subs[op.x].votes, false);
    }
    if Counted(subs, op) {
      var votes := UpsertVote(subs[op.x].votes, VoteRow(op.voter, op.vote, op.balance));
      AutoAndLazyAgree(votes, false);
      FinalisableExactly(votes, false);
    }
  }

  /** An admin's verdict on an open submission: the new row, and nothing else. */
  ghost predicate VerdictGiven(subs: Submissions, subs': Submissions, x: string, sub: Submission)
  {
    subs'.Keys == subs.Keys && x in subs && subs'[x] == sub && forall y :: y in subs && y != x ==> subs'[y] == subs[y]
  }

  // ----- The service object -----

  class SubmissionService {
    var subs: Submissions

    constructor ()
      ensures subs == map[]
    {
      subs := map[];
    }

    method ExecuteApproval(x: string, chainOk: bool) returns (ok: bool)
      requires x in subs
      modifies this
      ensures ok == chainOk && subs == Executed(old(subs), x, chainOk)
      ensures !ok ==> subs == old(subs)
      ensures ok ==> VerdictGiven(old(subs), subs, x, old(subs)[x].(status := Approved, rewardClaimed := true))
    {
      if chainOk {
        subs := subs[x := subs[x].(status := Approved, rewardClaimed := true)];
      }
      ok := chainOk;
    }

    /** Resolve a PENDING submission; `force` is the caller's decision, if it made one. */
    method Finalise(x: string, votes: seq<VoteRow>, force: Option<bool>, now: int, chainOk: bool) returns (ok: bool)
      modifies this
      ensures subs == Finalised(old(subs), x, votes, force, chainOk)
      ensures !Open(old(subs), x) ==> ok && subs == old(subs)
      ensures Open(old(subs), x) ==>
                var yes := if force.Some? then force.value else ApprovingTally(votes);
                && (ok <==> !yes || chainOk) && (!ok ==> subs == old(subs))
                && (ok && yes ==>
                      VerdictGiven(old(subs), subs, x, old(subs)[x].(status := Approved, rewardClaimed := true)))
                && (!yes ==> VerdictGiven(old(subs), subs, x, old(subs)[x].(status := Rejected)))
    {
      AutoAndLazyAgree(votes, false);
      if x !in subs || subs[x].status != Pending {
        return true;
      }
      var approve: bool;
      if force.Some? {
        approve := force.value;
      } else {
        var tally := BuildTally(votes, subs[x].votingEndsAt, now);
        if !tally.quorumMet {
          approve := false;
        } else {
          approve := tally.totalInk > 0 && tally.approveInk * 10000 / tally.totalInk >= APPROVAL_BPS;
        }
      }
      if approve {
        ok := ExecuteApproval(x, chainOk);
      } else {
        subs := subs[x := subs[x].(status := Rejected)];
        ok := true;
      }
    }

    /** Snapshot the balance, upsert the vote, recount, and finalise if the tally is decisive. */
    method CastVote(x: string, voter: string, vote: int, balance: nat, now: int, chainOk: bool)
      returns (r: Result<bool, Error>)
      modifies this
      ensures subs == VoteOn(old(subs), Op.CastVote(x, voter, vote, balance, now, chainOk))
      ensures VoteRule(old(subs), subs, Op.CastVote(x, voter, vote, balance, now, chainOk))
      ensures VoteReply(old(subs), Op.CastVote(x, voter, vote, balance, now, chainOk), r)
    {
      VoteFollows(subs, Op.CastVote(x, voter, vote, balance, now, chainOk));
      if x !in subs {
        return Err(NotFound);
      }
      if subs[x].status != Pending {
        return Err(AlreadyFinalised);
      }
      if now > subs[x].votingEndsAt {
        var done := Finalise(x, subs[x].votes, None, now, chainOk);
        return Err(if done then WindowClosed else ApprovalFailed);
      }
      if balance < MIN_INK_TO_VOTE {
        return Err(NoInk);
      }
      subs := subs[x := subs[x].(votes := UpsertVote(subs[x].votes, VoteRow(voter, vote, balance)))];
      var allVotes := subs[x].votes;
      var tally := BuildTally(allVotes, subs[x].votingEndsAt, now);
      AutoAndLazyAgree(allVotes, now > subs[x].votingEndsAt);
      FinalisableExactly(allVotes, now > subs[x].votingEndsAt);
      if tally.finalisable {
        var shouldApprove := tally.totalInk > 0 && tally.approveInk * 10000 / tally.totalInk >= APPROVAL_BPS;
        var done := Finalise(x, allVotes, Some(shouldApprove), now, chainOk);
        if !done {
          return Err(ApprovalFailed);
        }
      }
      r := Ok(tally.finalisable);
    }

    method AdminApprove(x: string, chainOk: bool) returns (r: Result<(), Error>)
      modifies this
      ensures subs == Apply(old(subs), Op.AdminApprove(x, chainOk))
      ensures r.Ok? <==> Open(old(subs), x) && chainOk
      ensures r.Ok? ==> VerdictGiven(old(subs), subs, x, old(subs)[x].(status := Approved, rewardClaimed := true))
      ensures r.Err? ==> subs == old(subs)
      ensures r == Err(NotFound) <==> x !in old(subs)
      ensures r == Err(AlreadyFinalised) <==> x in old(subs) && old(subs)[x].status != Pending
      ensures r == Err(ApprovalFailed) <==> Open(old(subs), x) && !chainOk
    {
      if x !in subs {
        return Err(NotFound);
      }
      if subs[x].status != Pending {
        return Err(AlreadyFinalised);
      }
      var done := ExecuteApproval(x, chainOk);
      r := if done then Ok(()) else Err(ApprovalFailed);
    }

    method AdminReject(x: string) returns (r: Result<(), Error>)
      modifies this
      ensures subs == Apply(old(subs), Op.AdminReject(x))
      ensures r.Ok? <==> Open(old(subs), x)
      ensures r.Ok? ==> VerdictGiven(old(subs), subs, x, old(subs)[x].(status := Rejected))
      ensures r.Err? ==> subs == old(subs)
      ensures r == Err(NotFound) <==> x !in old(subs)
      ensures r == Err(AlreadyFinalised) <==> x in old(subs) && old(subs)[x].status != Pending
    {
      if x !in subs {
        return Err(NotFound);
      }
      if subs[x].status != Pending {
        return Err(AlreadyFinalised);
      }
      subs := subs[x := subs[x].(status := Rejected)];
      r := Ok(());
    }
  }

  // ----- Verdicts over whole runs -----

  predicate Decided(subs: Submissions, x: string) { x in subs && subs[x].status != Pending }

  /** APPROVED and REJECTED absorb: status, votes and claim never change again. */
  lemma {:induction false} VerdictFreezes(ops: seq<Op>, i: nat, x: string)
    requires i <= |ops| && Decided(Run(ops[..i]), x)
    ensures x in Run(ops) && Run(ops)[x] == Run(ops[..i])[x]
    decreases |ops|
  {
    if i == |ops| {
      assert ops[..i] == ops;
    } else {
      var n := |ops| - 1;
      assert ops[..n][..i] == ops[..i];
      VerdictFreezes(ops[..n], i, x);
    }
  }

  predicate LateVote(op: Op, x: string, votingEndsAt: int)
  {
    op.CastVote? && op.x == x && op.now > votingEndsAt
  }

  /** The request that decides a submission, if no admin does, decides by the exact fractions. */
  lemma {:induction false} DecisionSound(subs: Submissions, op: Op, x: string)
    requires !Decided(subs, x) && Decided(Apply(subs, op), x)
    requires !op.AdminApprove? && !op.AdminReject?
    ensures var sub := Apply(subs, op)[x];
            && (sub.status == Approved ==> ApprovingTally(sub.votes))
            && (sub.status == Rejected ==>
                  RejectingTally(sub.votes) || (LateVote(op, x, sub.votingEndsAt) && !ApprovingTally(sub.votes)))
  {
    var votes := Apply(subs, op)[x].votes;
    AutoAndLazyAgree(votes, false);
    FinalisableExactly(votes, false);
  }

  /** Without an admin, APPROVED means a quorum with at least 60 % approving INK. */
  lemma {:induction false} ApprovalSound(ops: seq<Op>, x: string)
    requires x in Run(ops) && Run(ops)[x].status == Approved
    requires forall i :: 0 <= i < |ops| ==> !(ops[i].AdminApprove? && ops[i].x == x)
    ensures ApprovingTally(Run(ops)[x].votes)
    decreases |ops|
  {
    var n := |ops| - 1;
    var before := Run(ops[..n]);
    if Decided(before, x) {
      ApprovalSound(ops[..n], x);
    } else {
      DecisionSound(before, ops[n], x);
    }
  }

  /** Without an admin, REJECTED means a quorum below 40 %, or a vote after the deadline with no approving tally. */
  lemma {:induction false} RejectionSound(ops: seq<Op>, x: string)
    requires x in Run(ops) && Run(ops)[x].status == Rejected
    requires forall i :: 0 <= i < |ops| ==> !(ops[i].AdminReject? && ops[i].x == x)
    ensures var sub := Run(ops)[x];
            || RejectingTally(sub.votes)
            || (!ApprovingTally(sub.votes) && exists i :: 0 <= i < |ops| && LateVote(ops[i], x, sub.votingEndsAt))
    decreases |ops|
  {
    var n := |ops| - 1;
    var before := Run(ops[..n]);
    if Decided(before, x) {
      RejectionSound(ops[..n], x);
      if !RejectingTally(Run(ops)[x].votes) {
        var i :| 0 <= i < n && LateVote(ops[..n][i], x, Run(ops)[x].votingEndsAt);
        assert LateVote(ops[i], x, Run(ops)[x].votingEndsAt);
      }
    } else {
      DecisionSound(before, ops[n], x);
      if !RejectingTally(Run(ops)[x].votes) {
        assert LateVote(ops[n], x, Run(ops)[x].votingEndsAt);
      }
    }
  }

  predicate ChainSucceeds(op: Op)
  {
    (op.CastVote? || op.AdminApprove?) ==> op.chainOk
  }

  lemma {:induction false} NotLeftOpen(subs: Submissions, op: Op, x: string)
    requires ChainSucceeds(op) && x in Apply(subs, op)
    requires x in subs ==> subs[x].status == Pending ==> !TallyOf(subs[x].votes, false).finalisable
    ensures var sub := Apply(subs, op)[x]; sub.status == Pending ==> !TallyOf(sub.votes, false).finalisable
  {
    if x !in subs {
      assert TallyOf([], false).totalInk == 0;
    }
  }

  /** If every approval goes through, no PENDING submission has a quorum and a decisive tally. */
  lemma {:induction false} NoDecisiveTallyIsPending(ops: seq<Op>, x: string)
    requires forall i :: 0 <= i < |ops| ==> ChainSucceeds(ops[i])
    requires x in Run(ops) && Run(ops)[x].status == Pending
    ensures !ApprovingTally(Run(ops)[x].votes) && !RejectingTally(Run(ops)[x].votes)
    decreases |ops|
  {
    PendingIsUndecided(ops, x);
    FinalisableExactly(Run(ops)[x].votes, false);
  }

  lemma {:induction false} PendingIsUndecided(ops: seq<Op>, x: string)
    requires forall i :: 0 <= i < |ops| ==> ChainSucceeds(ops[i])
    requires x in Run(ops)
    ensures Run(ops)[x].status == Pending ==> !TallyOf(Run(ops)[x].votes, false).finalisable
    decreases |ops|
  {
    var n := |ops| - 1;
    if x in Run(ops[..n]) {
      PendingIsUndecided(ops[..n], x);
    }
    NotLeftOpen(Run(ops[..n]), ops[n], x);
  }
}
