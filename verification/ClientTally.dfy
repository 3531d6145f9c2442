/**
  The optimistic tally of the browser store: after a vote it corrects the sums
  it already has instead of fetching the rows again.  JavaScript numbers are
  modelled as exact integers and reals.
 */
module ClientTally {
  import opened Wrappers
  import opened Sums
  import opened Tally

  datatype ClientVotes = ClientVotes(
    approveCount: int, rejectCount: int,
    approveInk: int, rejectInk: int, totalInk: int,
    approvalPct: real, quorumMet: bool, finalisable: bool, expired: bool)

  /** What the store holds after fetching the server's tally. */
  function FromServer(t: VoteTally): ClientVotes
  {
    ClientVotes(t.approveCount, t.rejectCount, t.approveInk, t.rejectInk, t.totalInk,
                t.approvalPct, t.quorumMet, t.finalisable, t.expired)
  }

  /** `Math.round`: halves round up. */
  function JsRound(x: real): int { (x + 0.5).Floor }

  function Max(a: int, b: int): int { if a >= b then a else b }

  /** The derived fields, recomputed from the corrected sums. */
  function Derive(approveCount: int, rejectCount: int, approveInk: int, rejectInk: int, expired: bool): ClientVotes
  {
    var total := approveInk + rejectInk;
    var pct := if total == 0 then 0.0 else JsRound(approveInk as real / total as real * 1000.0) as real / 10.0;
    var bps := if total == 0 then 0.0 else approveInk as real / total as real * 10000.0;
    ClientVotes(approveCount, rejectCount, approveInk, rejectInk, total, pct,
                total >= 500, total >= 500 && (bps >= 6000.0 || bps < 4000.0), expired)
  }

  /** The update the store applies for a vote of weight `inkW`. */
  function AfterVote(c: ClientVotes, myVote: Option<int>, vote: int, inkW: nat): ClientVotes
  {
    var undoA := if myVote == Some(1) then 1 else 0;
    var undoR := if myVote == Some(0) then 1 else 0;
    var doA := if vote == 1 then 1 else 0;
    Derive(
      (if undoA == 1 then Max(0, c.approveCount - 1) else c.approveCount) + doA,
      (if undoR == 1 then Max(0, c.rejectCount - 1) else c.rejectCount) + 1 - doA,
      c.approveInk + (doA - undoA) * inkW,
      c.rejectInk + (1 - doA - undoR) * inkW,
      c.expired)
  }

  /** The old vote's side loses the weight and the new vote's side gains it. */
  ghost predicate MovesWeight(c: ClientVotes, r: ClientVotes, prevVote: Option<int>, vote: int, inkW: nat)
  {
    && r.approveInk - c.approveInk == (if vote == 1 then inkW else 0) - (if prevVote == Some(1) then inkW else 0)
    && r.rejectInk - c.rejectInk == (if vote == 0 then inkW else 0) - (if prevVote == Some(0) then inkW else 0)
    && r.totalInk == r.approveInk + r.rejectInk && r.expired == c.expired
  }

  lemma {:induction false} VoteMoves(c: ClientVotes, prevVote: Option<int>, vote: int, inkW: nat)
    requires vote == 0 || vote == 1
    ensures MovesWeight(c, AfterVote(c, prevVote, vote, inkW), prevVote, vote, inkW)
  {
    var undoA, undoR := if prevVote == Some(1) then 1 else 0, if prevVote == Some(0) then 1 else 0;
    assert (vote - undoA) * inkW == vote * inkW - undoA * inkW;
    assert (1 - vote - undoR) * inkW == inkW - vote * inkW - undoR * inkW;
  }

  /** Body of the `map` callback, with its `-=`, `+=` and `++`. */
  method Vote(c: ClientVotes, prevVote: Option<int>, vote: int, inkW: nat) returns (r: ClientVotes)
    requires vote == 0 || vote == 1
    ensures r == AfterVote(c, prevVote, vote, inkW)
    ensures MovesWeight(c, r, prevVote, vote, inkW)
  {
    VoteMoves(c, prevVote, vote, inkW);
    var approveInk, rejectInk := c.approveInk, c.rejectInk;
    var approveCount, rejectCount := c.approveCount, c.rejectCount;
    if prevVote == Some(1) {
      approveInk := approveInk - inkW;
      approveCount := Max(0, approveCount - 1);
    } else if prevVote == Some(0) {
      rejectInk := rejectInk - inkW;
      rejectCount := Max(0, rejectCount - 1);
    }
    if vote == 1 {
      approveInk := approveInk + inkW;
      approveCount := approveCount + 1;
    } else {
      rejectInk := rejectInk + inkW;
      rejectCount := rejectCount + 1;
    }
    r := Derive(approveCount, rejectCount, approveInk, rejectInk, c.expired);
  }

  predicate BinaryVotes(votes: seq<VoteRow>)
  {
    forall i :: 0 <= i < |votes| ==> votes[i].vote == 0 || votes[i].vote == 1
  }

  /** Exactly when the incremental update can be right: a first vote, or one cast with the same balance. */
  predicate NewOrSameWeight(votes: seq<VoteRow>, voter: string, weight: nat)
  {
    var i := FindVote(votes, voter);
    i < |votes| ==> votes[i].inkWeight == weight
  }

  lemma {:induction false} SumsAfterUpsert(votes: seq<VoteRow>, row: VoteRow, f: VoteRow -> nat)
    ensures var i := FindVote(votes, row.voter);
            SumSeq(UpsertVote(votes, row), f) == SumSeq(votes, f) + f(row) - (if i < |votes| then f(votes[i]) else 0)
  {
    var i := FindVote(votes, row.voter);
    if i < |votes| {
      SumSeqUpdate(votes, i, row, f);
    }
  }

  lemma {:induction false} CountedRow(votes: seq<VoteRow>, i: nat, f: VoteRow -> nat)
    requires i < |votes|
    ensures SumSeq(votes, f) >= f(votes[i])
  {
    SumSeqRemove(votes, i, f);
  }

  /**
    Starting from the server's tally, the client's sums and counts equal a
    recount after the upsert if and only if the voter is new or their weight is
    unchanged.  The counts always agree.
   */
  lemma {:induction false} IncrementalTallyExact(votes: seq<VoteRow>, expired: bool, voter: string, vote: int,
      weight: nat)
    requires BinaryVotes(votes) && (vote == 0 || vote == 1)
    ensures var c := AfterVote(FromServer(TallyOf(votes, expired)), MyVote(votes, voter), vote, weight);
            var s := FromServer(TallyOf(UpsertVote(votes, VoteRow(voter, vote, weight)), expired));
            && c.approveCount == s.approveCount && c.rejectCount == s.rejectCount
            && (c.approveInk == s.approveInk && c.rejectInk == s.rejectInk && c.totalInk == s.totalInk
                <==> NewOrSameWeight(votes, voter, weight))
  {
    var row := VoteRow(voter, vote, weight);
    SumsAfterUpsert(votes, row, ApproveShare);
    SumsAfterUpsert(votes, row, RejectShare);
    SumsAfterUpsert(votes, row, ApproveOne);
    SumsAfterUpsert(votes, row, RejectOne);
    var i := FindVote(votes, voter);
    if i < |votes| {
      CountedRow(votes, i, ApproveOne);
      CountedRow(votes, i, RejectOne);
    }
  }

  lemma {:induction false} RatioTest(a: nat, t: nat, scale: nat, n: nat)
    requires t > 0
    ensures a as real / t as real * scale as real >= n as real <==> a * scale >= n * t
  {
    var x := a as real / t as real;
    assert x * t as real == a as real;
    assert x * scale as real * t as real == (a * scale) as real;
    if x * scale as real >= n as real {
      assert (n * t) as real == n as real * t as real <= x * scale as real * t as real;
    } else {
      assert (n * t) as real == n as real * t as real > x * scale as real * t as real;
    }
  }

  /** The server truncates to a tenth of a percent; the client rounds to the nearest one. */
  lemma {:induction false} RoundVersusTruncate(a: nat, t: nat)
    requires t > 0
    ensures var shown := JsRound(a as real / t as real * 1000.0);
            shown == a * 1000 / t || shown == a * 1000 / t + 1
  {
    var q := a * 1000 / t;
    var x := a as real / t as real * 1000.0;
    RatioTest(a, t, 1000, q);
    RatioTest(a, t, 1000, q + 1);
    assert a * 1000 >= q * t;
    assert a * 1000 < (q + 1) * t;
    assert q as real <= x < q as real + 1.0;
  }

  /** `pct` is `approve` as a percentage of `total`, rounded to one decimal, halves up. */
  ghost predicate RoundedToTenths(pct: real, approve: int, total: int)
  {
    exists tenths: nat ::
      IsTenths(pct, tenths) && (2 * tenths - 1) * total <= 2000 * approve < (2 * tenths + 1) * total
  }

  lemma {:induction false} NearestTenth(a: nat, t: nat)
    requires t > 0
    ensures RoundedToTenths(JsRound(a as real / t as real * 1000.0) as real / 10.0, a, t)
  {
    var shown := JsRound(a as real / t as real * 1000.0);
    RoundVersusTruncate(a, t);
    var x := a as real / t as real;
    assert x * t as real == a as real;
    assert shown as real <= x * 1000.0 + 0.5 < shown as real + 1.0;
    ScaleUp(2 * shown - 1, x * 2000.0, t);
    ScaleUp(-2 * shown - 1, -x * 2000.0, t);
    assert IsTenths(shown as real / 10.0, shown);
  }

  lemma {:induction false} ScaleUp(n: int, x: real, t: nat)
    requires n as real <= x
    ensures (n * t) as real <= x * t as real
    ensures n as real < x && t > 0 ==> (n * t) as real < x * t as real
  {
  }

  /** The client's derived fields against the server's, for the same sums. */
  lemma {:induction false} DerivedFieldsAgree(approveCount: nat, rejectCount: nat, a: nat, r: nat, expired: bool)
    ensures var c := Derive(approveCount, rejectCount, a, r, expired);
            && (c.finalisable <==> a + r >= 500 && (5 * a >= 3 * (a + r) || 5 * a < 2 * (a + r)))
            && (c.approvalPct == ApprovalPct(a, a + r) || c.approvalPct == ApprovalPct(a, a + r) + 0.1)
            && (if a + r == 0 then c.approvalPct == 0.0 else RoundedToTenths(c.approvalPct, a, a + r))
  {
    var t := a + r;
    if t > 0 {
      RatioTest(a, t, 10000, 6000);
      RatioTest(a, t, 10000, 4000);
      RoundVersusTruncate(a, t);
      NearestTenth(a, t);
    }
  }

  /**
    Under that condition the quorum and the finalisable flag equal the
    recount's, and the shown percentage is the server's or 0.1 above it.
   */
  lemma {:induction false} IncrementalTallyRefines(votes: seq<VoteRow>, expired: bool, voter: string,
      vote: int, weight: nat)
    requires BinaryVotes(votes) && (vote == 0 || vote == 1)
    requires NewOrSameWeight(votes, voter, weight)
    ensures var c := AfterVote(FromServer(TallyOf(votes, expired)), MyVote(votes, voter), vote, weight);
            var s := FromServer(TallyOf(UpsertVote(votes, VoteRow(voter, vote, weight)), expired));
            && c.quorumMet == s.quorumMet && c.finalisable == s.finalisable && c.expired == s.expired
            && (c.approvalPct == s.approvalPct || c.approvalPct == s.approvalPct + 0.1)
            && (if c.totalInk == 0 then c.approvalPct == 0.0
                else RoundedToTenths(c.approvalPct, c.approveInk, c.totalInk))
  {
    IncrementalTallyExact(votes, expired, voter, vote, weight);
    var votes' := UpsertVote(votes, VoteRow(voter, vote, weight));
    SameDerivation(FromServer(TallyOf(votes, expired)), MyVote(votes, voter), vote, weight, TallyOf(votes', expired));
    DerivedVersusRecount(votes', expired);
  }

  lemma {:induction false} DerivedVersusRecount(votes: seq<VoteRow>, expired: bool)
    ensures var s := TallyOf(votes, expired);
            var c := Derive(s.approveCount, s.rejectCount, s.approveInk, s.rejectInk, expired);
            && c.quorumMet == s.quorumMet && c.finalisable == s.finalisable
            && (c.approvalPct == FromServer(s).approvalPct || c.approvalPct == FromServer(s).approvalPct + 0.1)
            && (if c.totalInk == 0 then c.approvalPct == 0.0
                else RoundedToTenths(c.approvalPct, c.approveInk, c.totalInk))
  {
    var s := TallyOf(votes, expired);
    FinalisableExactly(votes, expired);
    DerivedFieldsAgree(s.approveCount, s.rejectCount, s.approveInk, s.rejectInk, expired);
  }

  /** The update only depends on the sums it ends with. */
  lemma {:induction false} SameDerivation(c: ClientVotes, myVote: Option<int>, vote: int, weight: nat, s: VoteTally)
    requires var r := AfterVote(c, myVote, vote, weight);
             r.approveCount == s.approveCount && r.rejectCount == s.rejectCount
             && r.approveInk == s.approveInk && r.rejectInk == s.rejectInk
    ensures AfterVote(c, myVote, vote, weight)
            == Derive(s.approveCount, s.rejectCount, s.approveInk, s.rejectInk, c.expired)
  {
  }
}
