/**
  DAO vote tally: INK-weighted sums, the quorum, and the truncating
  basis-point tests that finalise a submission.
 */
module Tally {
  import opened Wrappers
  import opened Sums

  const QUORUM_INK: nat := 500
  const APPROVAL_BPS: nat := 6000
  const MIN_INK_TO_VOTE: nat := 1

  datatype VoteRow = VoteRow(voter: string, vote: int, inkWeight: nat)

  datatype SubmissionStatus = Pending | Approved | Rejected

  datatype Submission = Submission(
    submitter: string, status: SubmissionStatus, rewardClaimed: bool,
    votes: seq<VoteRow>, votingEndsAt: int)

  datatype VoteTally = VoteTally(
    approveCount: nat, rejectCount: nat,
    approveInk: nat, rejectInk: nat, totalInk: nat,
    approvalPct: real, quorumMet: bool, finalisable: bool, expired: bool)

  // ----- The four sums -----

  function ApproveShare(v: VoteRow): nat { if v.vote == 1 then v.inkWeight else 0 }
  function RejectShare(v: VoteRow): nat { if v.vote == 1 then 0 else v.inkWeight }
  function ApproveOne(v: VoteRow): nat { if v.vote == 1 then 1 else 0 }
  function RejectOne(v: VoteRow): nat { if v.vote == 1 then 0 else 1 }
  function Weight(v: VoteRow): nat { v.inkWeight }

  function ApproveInk(votes: seq<VoteRow>): nat { SumSeq(votes, ApproveShare) }
  function RejectInk(votes: seq<VoteRow>): nat { SumSeq(votes, RejectShare) }
  function ApproveCount(votes: seq<VoteRow>): nat { SumSeq(votes, ApproveOne) }
  function RejectCount(votes: seq<VoteRow>): nat { SumSeq(votes, RejectOne) }
  function TotalInk(votes: seq<VoteRow>): nat { ApproveInk(votes) + RejectInk(votes) }

  /** Integer division of bigints truncates; both operands are non-negative here. */
  function ApproveBps(approve: nat, total: nat): nat
  {
    if total == 0 then 0 else approve * 10000 / total
  }

  function ApprovalPct(approve: nat, total: nat): real
  {
    if total == 0 then 0.0 else (approve * 1000 / total) as real / 10.0
  }

  function TallyOf(votes: seq<VoteRow>, expired: bool): VoteTally
  {
    var approve, total := ApproveInk(votes), TotalInk(votes);
    var bps := ApproveBps(approve, total);
    VoteTally(
      ApproveCount(votes), RejectCount(votes), approve, RejectInk(votes), total,
      ApprovalPct(approve, total),
      total >= QUORUM_INK,
      total >= QUORUM_INK && (bps >= APPROVAL_BPS || bps < 10000 - APPROVAL_BPS),
      expired)
  }

  /** One pass over the vote rows with four accumulators. */
  method BuildTally(votes: seq<VoteRow>, votingEndsAt: int, now: int) returns (t: VoteTally)
    ensures t == TallyOf(votes, now > votingEndsAt)
    ensures t.expired == (now > votingEndsAt) && t.quorumMet == (t.totalInk >= 500)
    ensures t.totalInk == t.approveInk + t.rejectInk
    ensures t.finalisable
            <==> t.totalInk >= 500 && (5 * t.approveInk >= 3 * t.totalInk || 5 * t.approveInk < 2 * t.totalInk)
  {
    FinalisableExactly(votes, now > votingEndsAt);
    var approveInk, rejectInk, approveCount, rejectCount := 0, 0, 0, 0;
    for i := 0 to |votes|
      invariant approveInk == ApproveInk(votes[..i]) && rejectInk == RejectInk(votes[..i])
      invariant approveCount == ApproveCount(votes[..i]) && rejectCount == RejectCount(votes[..i])
    {
      var v := votes[i];
      assert votes[..i + 1] == votes[..i] + [v];
      if v.vote == 1 {
        approveInk := approveInk + v.inkWeight;
        approveCount := approveCount + 1;
      } else {
        rejectInk := rejectInk + v.inkWeight;
        rejectCount := rejectCount + 1;
      }
    }
    assert votes[..|votes|] == votes;
    var totalInk := approveInk + rejectInk;
    var quorumMet := totalInk >= QUORUM_INK;
    var approvalPct := if totalInk == 0 then 0.0 else (approveInk * 1000 / totalInk) as real / 10.0;
    var approveBps := if totalInk == 0 then 0 else approveInk * 10000 / totalInk;
    var finalisable := quorumMet && (approveBps >= APPROVAL_BPS || approveBps < 10000 - APPROVAL_BPS);
    t := VoteTally(approveCount, rejectCount, approveInk, rejectInk, totalInk,
                   approvalPct, quorumMet, finalisable, now > votingEndsAt);
  }

  // ----- Decisions -----

  /** `shouldApprove` of a cast vote that made the tally finalisable. */
  predicate AutoApproves(votes: seq<VoteRow>)
  {
    TotalInk(votes) > 0 && ApproveInk(votes) * 10000 / TotalInk(votes) >= APPROVAL_BPS
  }

  /** The decision of `_finalise` when the caller does not force one. */
  predicate LazyApproves(votes: seq<VoteRow>)
  {
    TotalInk(votes) >= QUORUM_INK && AutoApproves(votes)
  }

  // The exact fractions the truncated tests stand for.
  predicate Approving(approve: nat, total: nat) { 5 * approve >= 3 * total }
  predicate Rejecting(approve: nat, total: nat) { 5 * approve < 2 * total }

  lemma {:induction false} FloorBound(a: nat, t: nat, scale: nat, n: nat)
    requires t > 0
    ensures a * scale / t >= n <==> a * scale >= n * t
  {
    var q, r := a * scale / t, a * scale % t;
    assert a * scale == q * t + r;
    if q >= n {
      assert q * t >= n * t;
    } else {
      assert (q + 1) * t <= n * t;
    }
  }

  lemma {:induction false} BpsExact(a: nat, t: nat)
    requires t > 0
    ensures ApproveBps(a, t) >= APPROVAL_BPS <==> Approving(a, t)
    ensures ApproveBps(a, t) < 10000 - APPROVAL_BPS <==> Rejecting(a, t)
  {
    FloorBound(a, t, 10000, 6000);
    FloorBound(a, t, 10000, 4000);
  }

  /** Each row adds itself to its own side's count and its weight to its own side's INK; no rows, no INK. */
  lemma {:induction false} OneMoreVote(votes: seq<VoteRow>, v: VoteRow, expired: bool)
    ensures var t, u := TallyOf(votes, expired), TallyOf(votes + [v], expired);
            && (v.vote == 1 ==> u.approveInk == t.approveInk + v.inkWeight && u.approveCount == t.approveCount + 1
                                && u.rejectInk == t.rejectInk && u.rejectCount == t.rejectCount)
            && (v.vote != 1 ==> u.rejectInk == t.rejectInk + v.inkWeight && u.rejectCount == t.rejectCount + 1
                                && u.approveInk == t.approveInk && u.approveCount == t.approveCount)
    ensures var t := TallyOf([], expired);
            t.approveInk == 0 && t.rejectInk == 0 && t.approveCount == 0 && t.rejectCount == 0
  {
  }

  /** A vote set is finalisable exactly when it has a quorum and one side is decisive. */
  lemma {:induction false} FinalisableExactly(votes: seq<VoteRow>, expired: bool)
    ensures var t := TallyOf(votes, expired);
            t.finalisable
            <==> t.totalInk >= 500 && (5 * t.approveInk >= 3 * t.totalInk || 5 * t.approveInk < 2 * t.totalInk)
  {
    if TotalInk(votes) > 0 {
      BpsExact(ApproveInk(votes), TotalInk(votes));
    }
  }

  /** Automatic and lazy finalisation decide alike, by the exact 3/5 test, on every finalisable vote set. */
  lemma {:induction false} AutoAndLazyAgree(votes: seq<VoteRow>, expired: bool)
    ensures LazyApproves(votes) <==> TotalInk(votes) >= 500 && 5 * ApproveInk(votes) >= 3 * TotalInk(votes)
    ensures TallyOf(votes, expired).finalisable ==> (AutoApproves(votes) <==> LazyApproves(votes))
    ensures TallyOf(votes, expired).finalisable && !AutoApproves(votes) ==> 5 * ApproveInk(votes) < 2 * TotalInk(votes)
  {
    if TotalInk(votes) > 0 {
      BpsExact(ApproveInk(votes), TotalInk(votes));
    }
  }

  /** `pct` is `approve` as a percentage of `total`, cut off after one decimal. */
  ghost predicate CutToTenths(pct: real, approve: nat, total: nat)
  {
    exists tenths: nat :: IsTenths(pct, tenths) && tenths * total <= 1000 * approve < (tenths + 1) * total
  }

  ghost predicate IsTenths(pct: real, tenths: nat) { pct == tenths as real / 10.0 }

  lemma {:induction false} TenthsExact(a: nat, t: nat)
    requires t > 0
    ensures CutToTenths(ApprovalPct(a, t), a, t)
  {
    var q := a * 1000 / t;
    FloorBound(a, t, 1000, q);
    FloorBound(a, t, 1000, q + 1);
    assert IsTenths(ApprovalPct(a, t), q);
  }

  /**
    The displayed percentage crosses 60.0 and 40.0 exactly when the tests do.
    With no INK at all it shows 0 although the rejecting test does not hold.
   */
  lemma {:induction false} DisplayedPercentage(votes: seq<VoteRow>, expired: bool)
    ensures var t := TallyOf(votes, expired);
            && (t.approvalPct >= 60.0 <==> t.totalInk > 0 && 5 * t.approveInk >= 3 * t.totalInk)
            && (t.approvalPct < 40.0 <==> t.totalInk == 0 || 5 * t.approveInk < 2 * t.totalInk)
    ensures var t := TallyOf(votes, expired);
            if t.totalInk == 0 then t.approvalPct == 0.0 else CutToTenths(t.approvalPct, t.approveInk, t.totalInk)
  {
    if TotalInk(votes) > 0 {
      TenthsExact(ApproveInk(votes), TotalInk(votes));
    }
    PercentageBounds(ApproveInk(votes), TotalInk(votes));
  }

  lemma {:induction false} PercentageBounds(a: nat, t: nat)
    ensures ApprovalPct(a, t) >= 60.0 <==> t > 0 && 5 * a >= 3 * t
    ensures ApprovalPct(a, t) < 40.0 <==> t == 0 || 5 * a < 2 * t
  {
    if t > 0 {
      FloorBound(a, t, 1000, 600);
      FloorBound(a, t, 1000, 400);
    }
  }

  /** Postgres returns vote rows in no particular order; the tally does not depend on it. */
  lemma {:induction false} OrderIrrelevant(xs: seq<VoteRow>, ys: seq<VoteRow>, expired: bool)
    requires multiset(xs) == multiset(ys)
    ensures TallyOf(xs, expired) == TallyOf(ys, expired)
    ensures AutoApproves(xs) == AutoApproves(ys) && LazyApproves(xs) == LazyApproves(ys)
  {
    SumSeqPermutation(xs, ys, ApproveShare);
    SumSeqPermutation(xs, ys, RejectShare);
    SumSeqPermutation(xs, ys, ApproveOne);
    SumSeqPermutation(xs, ys, RejectOne);
  }

  // ----- One row per voter -----

  ghost predicate UniqueVoters(votes: seq<VoteRow>)
  {
    forall i, j :: 0 <= i < j < |votes| ==> votes[i].voter != votes[j].voter
  }

  /** Position of a voter's row, or |votes|. */
  function FindVote(votes: seq<VoteRow>, voter: string): (i: nat)
    ensures i <= |votes|
    ensures i < |votes| ==> votes[i].voter == voter
    ensures forall j :: 0 <= j < i ==> votes[j].voter != voter
  {
    if |votes| == 0 then 0
    else
      var i := FindVote(votes[..|votes| - 1], voter);
      if i < |votes| - 1 then i
      else if votes[i].voter == voter then i else |votes|
  }

  function MyVote(votes: seq<VoteRow>, voter: string): Option<int>
  {
    var i := FindVote(votes, voter);
    if i < |votes| then Some(votes[i].vote) else None
  }

  /** Upsert on the unique (submission, voter) pair. */
  function UpsertVote(votes: seq<VoteRow>, row: VoteRow): (r: seq<VoteRow>)
    ensures UniqueVoters(votes) ==> UniqueVoters(r)
    ensures row in r
    ensures forall v :: v in votes && v.voter != row.voter ==> v in r
    ensures forall v :: v in r ==> v == row || v in votes
    ensures forall v :: UniqueVoters(votes) && v in r && v.voter == row.voter ==> v == row
  {
    var i := FindVote(votes, row.voter);
    if i < |votes| then
      var r := votes[i := row];
      assert r[i] == row;
      assert forall j :: 0 <= j < |votes| && j != i ==> r[j] == votes[j];
      r
    else
      var r := votes + [row];
      assert r[|votes|] == row;
      assert forall j :: 0 <= j < |votes| ==> r[j] == votes[j];
      r
  }

  /** The total INK of a tally is the sum of the vote weights. */
  lemma {:induction false} TotalIsSumOfWeights(votes: seq<VoteRow>)
    ensures TotalInk(votes) == SumSeq(votes, Weight)
    decreases |votes|
  {
    if |votes| > 0 {
      TotalIsSumOfWeights(votes[..|votes| - 1]);
    }
  }
}
