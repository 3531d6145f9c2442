/** What the reward protocol guarantees after any interleaving, crash or lost reply. */
module RewardTheorems {
  import opened Wrappers
  import opened Sums
  import opened Keys
  import opened InkStores
  import opened ReadingRules
  import opened Tally
  import opened RewardMachine
  import opened RewardInvariant
  import opened RewardSteps
  import opened RewardFrames
  import opened RewardHistory

  // ----- Exactly-once minting -----

  /** Keys the chain minted that no ledger row records. */
  function Outstanding(s: State): set<InkKey> { s.chain.registry - s.mirror.ledger.Keys }

  /**
    In flight: one live thread holds what its own chain call added, and has held
    it ever since.  Lost: some step ended the thread that held it, or its reply
    never arrived.
   */
  ghost predicate AccountedFor(actions: seq<Action>, x: Token)
  {
    || (exists i: nat, t: ThreadId :: HeldSince(actions, i, t, x) && OnlyHolder(Run(actions), t, x))
    || ((exists i: nat :: LostAt(actions, i, x)) && forall t: ThreadId :: !Holds(Run(actions), t, x))
  }

  /** What is minted but not mirrored is exactly what is in flight or was lost. */
  lemma {:induction false} UnmirroredAccountedFor(actions: seq<Action>, x: Token)
    ensures Minted(Run(actions), x) && !Mirrored(Run(actions), x) <==> AccountedFor(actions, x)
  {
    RunInv(actions);
    var s := Run(actions);
    TokenFates(s, x);
    if Minted(s, x) && !Mirrored(s, x) {
      if t: ThreadId :| Holds(s, t, x) {
        var i := HeldProvenance(actions, t, x);
        assert OnlyHolder(s, t, x);
      } else {
        var i := LostProvenance(actions, x);
      }
    } else if i: nat :| LostAt(actions, i, x) {
      LostForGood(actions, i, x);
    }
  }

  /**
    No key is minted twice, every ledger key is on chain, and the minted keys
    without a ledger row are exactly those in flight or lost.
   */
  lemma {:induction false} ExactlyOnce(actions: seq<Action>)
    ensures var s := Run(actions);
            && (forall i, j :: 0 <= i < j < |s.chain.earnings| ==> s.chain.earnings[i].key != s.chain.earnings[j].key)
            && s.mirror.ledger.Keys <= s.chain.registry
            && forall k: InkKey :: k in Outstanding(s) <==> AccountedFor(actions, Ink(k))
  {
    RunInv(actions);
    var s := Run(actions);
    forall k: InkKey ensures k in Outstanding(s) <==> AccountedFor(actions, Ink(k)) {
      UnmirroredAccountedFor(actions, Ink(k));
    }
  }

  /** What the chain minted for a user minus what the mirror credited is exactly the keys in flight or lost. */
  lemma {:induction false} MintedMinusCredited(actions: seq<Action>, u: UserId)
    ensures var s := Run(actions);
            && MintedOnChain(s.chain, u) == LedgerSum(s.mirror, u) + SumOver(Outstanding(s), KeyShare(u))
            && BalanceOf(s.mirror, u) == LedgerSum(s.mirror, u)
    ensures forall k: InkKey :: k in Outstanding(Run(actions)) <==> AccountedFor(actions, Ink(k))
  {
    RunInv(actions);
    ExactlyOnce(actions);
    BalanceCountsRows(Run(actions).mirror, u);
    MintedSplit(Run(actions).chain, Run(actions).mirror, u);
  }

  lemma {:induction false} MintedSplit(c: Chain, m: Mirror, u: UserId)
    requires ChainOk(c) && RowsOk(m) && m.ledger.Keys <= c.registry
    ensures MintedOnChain(c, u) == LedgerSum(m, u) + SumOver(c.registry - m.ledger.Keys, KeyShare(u))
  {
    assert MintedOnChain(c, u) == SumOver(c.registry, KeyShare(u));
    LedgerSumByKeys(m, u);
    assert m.ledger.Keys + (c.registry - m.ledger.Keys) == c.registry;
    SumUnion(m.ledger.Keys, c.registry - m.ledger.Keys, KeyShare(u));
  }

  /**
    A ledger row appears only in the write of the thread whose own chain call minted the key, and
    which has held it since.
   */
  lemma {:induction false} CreditedByHolder(actions: seq<Action>, a: Action, k: InkKey) returns (i: nat)
    requires k in Apply(Run(actions), a).mirror.ledger && k !in Run(actions).mirror.ledger
    ensures a.Step? && a.outcome == Good && HeldSince(actions, i, a.t, Ink(k)) && OnlyHolder(Run(actions), a.t, Ink(k))
  {
    MirroredByHolder(Run(actions), a, Ink(k));
    RunInv(actions);
    TokenFates(Run(actions), Ink(k));
    i := HeldProvenance(actions, a.t, Ink(k));
  }

  /** The `update` branch of the ledger upsert is unreachable: a thread about to write finds no row. */
  lemma {:induction false} LedgerRowIsNew(actions: seq<Action>, t: ThreadId)
    requires t in Run(actions).threads && Held(Run(actions).threads[t]).Some?
    ensures Held(Run(actions).threads[t]).value !in Run(actions).mirror.ledger
  {
    RunInv(actions);
    var s := Run(actions);
    assert t in HeldKeys(s.threads);
  }

  /**
    A badge row appears only in the write of the thread whose own chain call minted the badge, and
    which has held it since.
   */
  lemma {:induction false} BadgeRowByHolder(actions: seq<Action>, a: Action, b: BadgeKey) returns (i: nat)
    requires b in BadgeKeys(Apply(Run(actions), a).badgeRows) && b !in BadgeKeys(Run(actions).badgeRows)
    ensures a.Step? && a.outcome == Good && HeldSince(actions, i, a.t, Badge(b))
        && OnlyHolder(Run(actions), a.t, Badge(b))
  {
    MirroredByHolder(Run(actions), a, Badge(b));
    RunInv(actions);
    TokenFates(Run(actions), Badge(b));
    i := HeldProvenance(actions, a.t, Badge(b));
  }

  /**
    No badge is minted twice, no user has two rows of one badge, every row is on
    chain, and the badges without a row are exactly those in flight or lost.
   */
  lemma {:induction false} BadgesOnce(actions: seq<Action>)
    ensures var s := Run(actions);
            && (forall i, j :: 0 <= i < j < |s.chain.issued| ==> s.chain.issued[i] != s.chain.issued[j])
            && (forall i, j :: 0 <= i < j < |s.badgeRows| ==> s.badgeRows[i].key != s.badgeRows[j].key)
            && BadgeKeys(s.badgeRows) <= s.chain.badges
            && forall b :: b in s.chain.badges - BadgeKeys(s.badgeRows) <==> AccountedFor(actions, Badge(b))
  {
    RunInv(actions);
    var s := Run(actions);
    forall b ensures b in s.chain.badges - BadgeKeys(s.badgeRows) <==> AccountedFor(actions, Badge(b)) {
      UnmirroredAccountedFor(actions, Badge(b));
    }
  }

  // ----- Mirror conservation -----

  /** balance = totalInkEarned = sum of ledger amounts = 10·chapters + 100·completions + 50·approvals. */
  lemma {:induction false} MirrorConserved(actions: seq<Action>, u: UserId)
    ensures var m := Run(actions).mirror;
            && BalanceOf(m, u) == EarnedOf(m, u) == LedgerSum(m, u)
            && BalanceOf(m, u) == 10 * |RowsOf(m, u, ChapterRead)| + 100 * |RowsOf(m, u, SeriesComplete)|
                                  + 50 * |RowsOf(m, u, SubmissionApproved)|
  {
    RunInv(actions);
    BalanceCountsRows(Run(actions).mirror, u);
  }

  // ----- Reading rewards: the subset half -----

  /** Some request submitted this chapter or a later one. */
  ghost predicate SubmittedAtLeast(actions: seq<Action>, slot: Slot, chapter: nat)
  {
    exists i :: 0 <= i < |actions| && IsUpsert(actions[i], slot) && actions[i].request.chapter >= chapter
  }

  predicate IsUpsert(a: Action, slot: Slot)
  {
    a.Spawn? && a.request.UpsertRequest? && a.request.slot == slot
  }

  /** Step `i` decided that a request to complete the series had reached its last live chapter. */
  ghost predicate CompletionEarnedAt(actions: seq<Action>, i: nat, slot: Slot)
    requires i < |actions|
  {
    var s := Run(actions[..i]);
    && actions[i].Step? && actions[i].outcome == Good && actions[i].t in s.threads
    && ReachesEnd(s, s.threads[actions[i].t].pc, slot)
  }

  lemma {:induction false} EarnedGrows(s: State, a: Action, slot: Slot)
    requires slot in Apply(s, a).earned && slot !in s.earned
    ensures a.Step? && a.t in s.threads
    ensures ReachesEnd(s, s.threads[a.t].pc, slot)
  {
    if a.Step? && a.t in s.threads {
      StepFrame(s, a.t, a.outcome);
    }
  }

  lemma {:induction false} SubmittedGrows(s: State, a: Action, slot: Slot)
    requires slot in Apply(s, a).submitted
    requires slot !in s.submitted || s.submitted[slot] != Apply(s, a).submitted[slot]
    ensures IsUpsert(a, slot) && a.request.chapter == Apply(s, a).submitted[slot]
  {
    if a.Step? && a.t in s.threads {
      StepFrame(s, a.t, a.outcome);
    }
  }

  lemma {:induction false} SubmittedFromRequests(actions: seq<Action>, slot: Slot)
    requires slot in Run(actions).submitted
    ensures SubmittedAtLeast(actions, slot, Run(actions).submitted[slot])
    decreases |actions|
  {
    if actions != [] {
      var n := |actions| - 1;
      var before := Run(actions[..n]);
      if slot in before.submitted && before.submitted[slot] == Run(actions).submitted[slot] {
        SubmittedFromRequests(actions[..n], slot);
        var i :| 0 <= i < n && IsUpsert(actions[..n][i], slot)
            && actions[..n][i].request.chapter >= before.submitted[slot];
        assert actions[i] == actions[..n][i];
      } else {
        SubmittedGrows(before, actions[n], slot);
        assert IsUpsert(actions[n], slot);
      }
    }
  }

  lemma {:induction false} EarnedFromSteps(actions: seq<Action>, slot: Slot) returns (i: nat)
    requires slot in Run(actions).earned
    ensures i < |actions| && CompletionEarnedAt(actions, i, slot)
    decreases |actions|
  {
    var n := |actions| - 1;
    var before := Run(actions[..n]);
    if slot in before.earned {
      i := EarnedFromSteps(actions[..n], slot);
      assert actions[..n][..i] == actions[..i];
      assert actions[..n][i] == actions[i];
    } else {
      EarnedGrows(before, actions[n], slot);
      i := n;
    }
  }

  ghost predicate KeyEarned(actions: seq<Action>, k: InkKey)
    requires !k.Approval?
  {
    var slot := Slot(k.user, k.series);
    match k
    case FirstChapter(_, _) => SubmittedAtLeast(actions, slot, 0)
    case Milestone(_, _, mark) => mark % 25 == 0 && mark >= 25 && SubmittedAtLeast(actions, slot, mark)
    case Completion(_, _) => exists i: nat :: i < |actions| && CompletionEarnedAt(actions, i, slot)
  }

  /**
    Whatever failed or interleaved, every reading key on chain was earned: the
    first-chapter key by an update of that series, a milestone key by a request
    that reached its mark, a completion key by a request that reached the end.
   */
  lemma {:induction false} ReadingKeysEarned(actions: seq<Action>, k: InkKey)
    requires k in Run(actions).chain.registry && !k.Approval?
    ensures KeyEarned(actions, k)
  {
    RunInv(actions);
    var s := Run(actions);
    var slot := Slot(k.user, k.series);
    assert KeyOk(ContextOf(s), k);
    SubmittedFromRequests(actions, slot);
    var i :| 0 <= i < |actions| && IsUpsert(actions[i], slot) && actions[i].request.chapter >= s.submitted[slot];
    if k.Milestone? {
      var c := s.submitted[slot];
      assert k.mark == 25 * (k.mark / 25);
      assert c >= 25 * (c / 25) >= 25 * (k.mark / 25);
    }
    if k.Completion? {
      var j := EarnedFromSteps(actions, slot);
    }
  }

  // ----- Approval rewards -----

  function ApprovalEarnings(c: Chain, x: SubmissionId): set<nat>
  {
    set i | 0 <= i < |c.earnings| && c.earnings[i].key.Approval? && c.earnings[i].key.submission == x
  }

  /**
    rewardClaimed is true exactly when the approval's ledger row exists; that
    row is worth 50 INK to the submitter and is the only one for the submission.
   */
  lemma {:induction false} RewardClaimedIffPaid(actions: seq<Action>, x: SubmissionId)
    requires x in Run(actions).subs
    ensures var s := Run(actions); var key := Approval(s.subs[x].submitter, x);
            && (s.subs[x].rewardClaimed <==> key in s.mirror.ledger)
            && (key in s.mirror.ledger ==>
                  s.mirror.ledger[key].amount == 50 && s.mirror.ledger[key].user == s.subs[x].submitter)
            && (forall k :: k in s.mirror.ledger && k.Approval? && k.submission == x ==> k == key)
            && (forall i, j :: i in ApprovalEarnings(s.chain, x) && j in ApprovalEarnings(s.chain, x) ==> i == j)
  {
    RunInv(actions);
    var s := Run(actions);
    assert SubOk(s.mirror, x, s.subs[x]);
    forall k | k in s.chain.registry && k.Approval? && k.submission == x ensures k == Approval(s.subs[x].submitter, x) {
      assert KeyOk(ContextOf(s), k);
    }
    forall i, j | i in ApprovalEarnings(s.chain, x) && j in ApprovalEarnings(s.chain, x) ensures i == j {
      assert s.chain.earnings[i].key in s.chain.registry && s.chain.earnings[j].key in s.chain.registry;
    }
  }

  /** A claimed reward stays claimed. */
  lemma {:induction false} ClaimsPersist(s: State, a: Action, x: SubmissionId)
    requires x in s.subs && s.subs[x].rewardClaimed
    ensures x in Apply(s, a).subs && Apply(s, a).subs[x].rewardClaimed
  {
    if a.Step? && a.t in s.threads {
      StepFrame(s, a.t, a.outcome);
    }
  }

  // ----- Votes are backed by earned INK -----

  function VoterBalance(m: Mirror): VoteRow -> nat { (v: VoteRow) => BalanceOf(m, v.voter) }
  ghost function EarnedLedger(m: Mirror): UserId -> nat { (u: UserId) => LedgerSum(m, u) }

  function Voters(votes: seq<VoteRow>): set<UserId> { set v | v in votes :: v.voter }

  lemma {:induction false} SumByVoter(votes: seq<VoteRow>, f: VoteRow -> nat, g: UserId -> nat)
    requires UniqueVoters(votes) && forall v :: v in votes ==> f(v) == g(v.voter)
    ensures SumSeq(votes, f) == SumOver(Voters(votes), g)
    decreases |votes|
  {
    if |votes| > 0 {
      var n := |votes| - 1;
      SumByVoter(votes[..n], f, g);
      assert votes == votes[..n] + [votes[n]];
      assert Voters(votes) == Voters(votes[..n]) + {votes[n].voter};
      SumAdd(Voters(votes[..n]), g, votes[n].voter);
    } else {
      assert Voters(votes) == {};
    }
  }

  /** The weight on a submission never exceeds what its voters have earned in the ledger. */
  lemma {:induction false} VotesBackedByLedger(actions: seq<Action>, x: SubmissionId)
    requires x in Run(actions).subs
    ensures var s := Run(actions); var votes := s.subs[x].votes;
            && UniqueVoters(votes)
            && TotalInk(votes) <= SumSeq(votes, VoterBalance(s.mirror))
            && SumSeq(votes, VoterBalance(s.mirror)) == SumOver(Voters(votes), EarnedLedger(s.mirror))
            && (TallyOf(votes, false).quorumMet ==> SumOver(Voters(votes), EarnedLedger(s.mirror)) >= 500)
  {
    RunInv(actions);
    var s := Run(actions);
    var votes := s.subs[x].votes;
    assert SubOk(s.mirror, x, s.subs[x]);
    TotalIsSumOfWeights(votes);
    SumSeqBounded(votes, Weight, VoterBalance(s.mirror));
    SumByVoter(votes, VoterBalance(s.mirror), EarnedLedger(s.mirror));
  }
}
