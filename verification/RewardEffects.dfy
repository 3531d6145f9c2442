/**
  What one step of a thread can do: it leaves other threads alone, its program
  counter moves along the request's code, and the chain grows only by what the
  thread then holds or loses.
 */
module RewardEffects {
  import opened Wrappers
  import opened Keys
  import opened InkStores
  import opened ReadingRules
  import opened Tally
  import opened RewardMachine

  /** The decision `_finalise` takes on these inputs. */
  predicate Approves(votes: seq<VoteRow>, force: Option<bool>)
  {
    if force.Some? then force.value else LazyApproves(votes)
  }

  predicate IsPending(s: State, x: SubmissionId) { x in s.subs && s.subs[x].status == Pending }

  predicate EntersVerdict(s: State, pc: Pc, next: Pc, o: Outcome)
  {
    && (next.RejectWrite? ==>
          && o == Good && IsPending(s, next.sub)
          && (pc == AdminRejectRead(next.sub)
              || (pc.FinaliseRead? && pc.sub == next.sub && !Approves(pc.votes, pc.force))))
    && (next.ApproveCheck? ==>
          && o == Good && IsPending(s, next.sub) && next.submitter == s.subs[next.sub].submitter
          && (pc == AdminApproveRead(next.sub)
              || (pc.FinaliseRead? && pc.sub == next.sub && Approves(pc.votes, pc.force))))
    && (next.ApproveCall? ==>
          && o == Good && pc == ApproveCheck(next.sub, next.submitter)
          && (next.alreadyHasBadge <==> ContributorBadge(next.submitter) in BadgeKeys(s.badgeRows)))
    && (next.ApproveWrite? ==>
          && o == Good && pc.ApproveCall? && pc.sub == next.sub && pc.submitter == next.submitter
          && ApprovalOutcome(s, pc.sub, pc.submitter, pc.alreadyHasBadge).Some?
          && (next.badgeObject.Some? <==> !pc.alreadyHasBadge))
  }

  predicate EntersVote(s: State, pc: Pc, next: Pc, o: Outcome)
  {
    && !next.VoteRead? && !next.AdminApproveRead? && !next.AdminRejectRead?
    && (next.VoteBalance? ==>
          && o == Good && pc == VoteRead(next.sub, next.voter, next.vote) && IsPending(s, next.sub)
          && s.now <= s.subs[next.sub].votingEndsAt)
    && (next.VoteUpsert? ==>
          && o == Good && pc == VoteBalance(next.sub, next.row.voter, next.row.vote)
          && MIN_INK_TO_VOTE <= BalanceOf(s.mirror, next.row.voter) == next.row.inkWeight)
    && (next.VoteRecount? ==> o == Good && pc.VoteUpsert? && pc.sub == next.sub)
    && (next.FinaliseRead? ==>
          && o == Good && next.sub in s.subs && next.votes == s.subs[next.sub].votes
          && ((pc.VoteRead? && pc.sub == next.sub && IsPending(s, next.sub)
               && s.now > s.subs[next.sub].votingEndsAt && next.force == None)
              || (pc == VoteRecount(next.sub) && TallyOf(next.votes, false).finalisable
                  && next.force == Some(AutoApproves(next.votes)))))
  }

  predicate EntersMint(s: State, pc: Pc, next: Pc, o: Outcome)
  {
    && (next.MintWrite? ==> o == Good && pc == MintCall(next.e) && next.e.key !in s.chain.registry)
    && (next.BadgeWrite? ==> o == Good && pc == BadgeCall(next.badge) && next.badge !in s.chain.badges)
  }

  /** `next` can follow `pc` in state `s`. */
  predicate MayFollow(s: State, pc: Pc, next: Pc, o: Outcome)
  {
    EntersVerdict(s, pc, next, o) && EntersVote(s, pc, next, o) && EntersMint(s, pc, next, o)
  }

  ghost predicate OthersKept(s: State, t: ThreadId, s': State)
  {
    forall u: ThreadId :: u != t ==>
      (u in s'.threads <==> u in s.threads) && (u in s.threads ==> s'.threads[u] == s.threads[u])
  }

  ghost predicate IsLost<K(!new)>(fate: map<K, Fate>, k: K) { k in fate && fate[k] == Lost }

  /** A key the step adds to the chain is then held by the thread, or lost with its reply. */
  ghost predicate Accounted<K(!new)>(seen: set<K>, seen': set<K>, held: Option<K>, o: Outcome)
  {
    && seen <= seen'
    && forall k :: k in seen' && k !in seen ==>
         (o == Good && held == Some(k)) || (o == LostReply && held == None)
  }

  /** A key is lost only when the thread that held it, or whose call just added it, ends. */
  ghost predicate LossesExplained<K(!new)>(fate: map<K, Fate>, fate': map<K, Fate>, seen: set<K>, seen': set<K>,
      held: Option<K>, ended: bool)
  {
    forall k :: IsLost(fate', k) && !IsLost(fate, k) ==>
      ended && (held == Some(k) || (k in seen' && k !in seen))
  }

  function HeldNow(s: State, t: ThreadId): Option<InkKey> { if t in s.threads then Held(s.threads[t]) else None }
  function BadgeNow(s: State,
      t: ThreadId): Option<BadgeKey> { if t in s.threads then HeldBadge(s.threads[t]) else None }

  ghost predicate KeyEffect(s: State, t: ThreadId, o: Outcome, s': State)
  {
    && Accounted(s.chain.registry, s'.chain.registry, HeldNow(s', t), o)
    && LossesExplained(s.fate, s'.fate, s.chain.registry, s'.chain.registry, HeldNow(s, t), t !in s'.threads)
    && (HeldNow(s', t).Some? ==> HeldNow(s', t).value !in s.chain.registry && HeldNow(s', t).value in s'.chain.registry)
  }

  ghost predicate RowsEffect(s: State, t: ThreadId, s1: State)
  {
    || s1.badgeRows == s.badgeRows
    || (BadgeNow(s, t).Some? && exists id :: s1.badgeRows == s.badgeRows + [BadgeRow(BadgeNow(s, t).value, id)])
  }

  ghost predicate BadgeEffect(s: State, t: ThreadId, o: Outcome, s': State)
  {
    && Accounted(s.chain.badges, s'.chain.badges, BadgeNow(s', t), o)
    && LossesExplained(s.badgeFate, s'.badgeFate, s.chain.badges, s'.chain.badges, BadgeNow(s, t), t !in s'.threads)
    && (BadgeNow(s', t).Some? ==> BadgeNow(s', t).value !in s.chain.badges && BadgeNow(s', t).value in s'.chain.badges)
    && RowsEffect(s, t, s') && (s'.badgeRows != s.badgeRows ==> o == Good)
  }

  ghost predicate PcEffect(s: State, t: ThreadId, o: Outcome, s': State)
    requires t in s.threads
  {
    OthersKept(s, t, s') && (t in s'.threads ==> MayFollow(s, s.threads[t].pc, s'.threads[t].pc, o))
  }

  ghost predicate Effect(s: State, t: ThreadId, o: Outcome, s': State)
    requires t in s.threads
  {
    PcEffect(s, t, o, s') && KeyEffect(s, t, o, s') && BadgeEffect(s, t, o, s')
  }

  // ----- Building blocks -----

  /** Same threads, chain and badge rows. */
  predicate SameCore(s: State, s1: State)
  {
    && s1.threads == s.threads && s1.chain == s.chain && s1.badgeRows == s.badgeRows
    && s1.fate == s.fate && s1.badgeFate == s.badgeFate
  }

  lemma {:induction false} EndEffect(s: State, s1: State, t: ThreadId, o: Outcome)
    requires t in s.threads && SameCore(s, s1)
    ensures Effect(s, t, o, End(s1, t))
  {
  }

  predicate Neutral(pc: Pc) { !pc.MintWrite? && !pc.BadgeWrite? && !pc.ApproveWrite? }

  lemma {:induction false} MoveEffect(s: State, s1: State, t: ThreadId, o: Outcome, th: Thread)
    requires t in s.threads && SameCore(s, s1)
    requires MayFollow(s, s.threads[t].pc, th.pc, o) && Neutral(th.pc)
    ensures Effect(s, t, o, s1.(threads := s1.threads[t := th]))
  {
  }

  lemma {:induction false} AdvanceEffect(s: State, t: ThreadId, o: Outcome)
    requires t in s.threads
    ensures Effect(s, t, o, Advance(s, t))
  {
    var rest := s.threads[t].rest;
    if rest == [] {
      EndEffect(s, s, t, o);
    } else {
      MoveEffect(s, s, t, o, Thread(StartOf(rest[0]), rest[1..]));
    }
  }

  /** The chain took a key; the reply arrived. */
  lemma {:induction false} AcceptEffect(s: State, t: ThreadId, e: Earning)
    requires t in s.threads && s.threads[t].pc == MintCall(e) && Earn(s.chain, e).Some?
    ensures Effect(s, t, Good, AcceptKey(s, t, e, MintWrite(e, s.chain.nextId)))
  {
  }

  lemma {:induction false} MintCallEffect(s: State, t: ThreadId, e: Earning, o: Outcome)
    requires t in s.threads && s.threads[t].pc == MintCall(e)
    ensures Effect(s, t, o, StepMintCall(s, t, e, o))
  {
    if o == Fails || Earn(s.chain, e).None? {
      EndEffect(s, s, t, o);
      AdvanceEffect(s, t, o);
    } else if o == Good {
      AcceptEffect(s, t, e);
    }
  }

  /** `s1` is `s` after thread `t`'s mirror write: it holds nothing any more, and nothing got lost. */
  ghost predicate Wrote(s: State, t: ThreadId, s1: State)
    requires t in s.threads
  {
    && s1.threads == s.threads[t := Thread(Idle, s.threads[t].rest)] && s1.chain == s.chain
    && (forall k :: IsLost(s1.fate, k) ==> IsLost(s.fate, k))
    && (forall b :: IsLost(s1.badgeFate, b) ==> IsLost(s.badgeFate, b))
    && RowsEffect(s, t, s1)
  }

  lemma {:induction false} WroteEndEffect(s: State, t: ThreadId, s1: State)
    requires t in s.threads && Wrote(s, t, s1)
    ensures Effect(s, t, Good, End(s1, t))
  {
  }

  lemma {:induction false} WroteNextEffect(s: State, t: ThreadId, s1: State)
    requires t in s.threads && Wrote(s, t, s1)
    ensures Effect(s, t, Good, Advance(s1, t))
  {
    var rest := s1.threads[t].rest;
    if rest == [] {
      WroteEndEffect(s, t, s1);
    }
  }

  lemma {:induction false} RecordedEffect(s: State, t: ThreadId, e: Earning, digest: Digest)
    requires t in s.threads && s.threads[t].pc == MintWrite(e, digest) && Credit(s.mirror, e, digest).Some?
    ensures Effect(s, t, Good, Advance(RecordKey(s, t, e, digest), t))
  {
    WroteNextEffect(s, t, RecordKey(s, t, e, digest));
  }

  lemma {:induction false} MintEffect(s: State, t: ThreadId, o: Outcome)
    requires t in s.threads
    requires var pc := s.threads[t].pc; pc.MintCheck? || pc.MintCall? || pc.MintWrite?
    ensures Effect(s, t, o, StepMint(s, t, o))
  {
    match s.threads[t].pc
    case MintCheck(e) =>
      if o != Good { EndEffect(s, s, t, o); }
      else if HasRow(s.mirror, e.key) { AdvanceEffect(s, t, o); }
      else { MoveEffect(s, s, t, o, s.threads[t].(pc := MintCall(e))); }
    case MintCall(e) =>
      MintCallEffect(s, t, e, o);
    case MintWrite(e, digest) =>
      if o != Good || Credit(s.mirror, e, digest).None? { EndEffect(s, s, t, o); }
      else { RecordedEffect(s, t, e, digest); }
  }

  lemma {:induction false} BadgeRecordedEffect(s: State, t: ThreadId, b: BadgeKey, id: Digest)
    requires t in s.threads && s.threads[t].pc == BadgeWrite(b, id)
    ensures Effect(s, t, Good, Advance(RecordBadge(s, t, b, id, Idle), t))
  {
    var s1 := RecordBadge(s, t, b, id, Idle);
    assert s1.badgeRows == s.badgeRows + [BadgeRow(BadgeNow(s, t).value, id)];
    WroteNextEffect(s, t, s1);
  }

  lemma {:induction false} BadgeCheckEffect(s: State, t: ThreadId, b: BadgeKey, o: Outcome)
    requires t in s.threads && s.threads[t].pc == BadgeCheck(b)
    ensures Effect(s, t, o, StepBadge(s, t, o))
  {
    if o != Good { EndEffect(s, s, t, o); }
    else if b in BadgeKeys(s.badgeRows) { AdvanceEffect(s, t, o); }
    else { MoveEffect(s, s, t, o, s.threads[t].(pc := BadgeCall(b))); }
  }

  lemma {:induction false} BadgeCallEffect(s: State, t: ThreadId, b: BadgeKey, o: Outcome)
    requires t in s.threads && s.threads[t].pc == BadgeCall(b)
    ensures Effect(s, t, o, StepBadgeCall(s, t, b, o))
  {
    if o == Fails || MintBadge(s.chain, b).None? { EndEffect(s, s, t, o); }
  }

  lemma {:induction false} BadgeStepEffect(s: State, t: ThreadId, o: Outcome)
    requires t in s.threads
    requires var pc := s.threads[t].pc; pc.BadgeCheck? || pc.BadgeCall? || pc.BadgeWrite?
    ensures Effect(s, t, o, StepBadge(s, t, o))
  {
    match s.threads[t].pc
    case BadgeCheck(b) => BadgeCheckEffect(s, t, b, o);
    case BadgeCall(b) => BadgeCallEffect(s, t, b, o);
    case BadgeWrite(b, id) =>
      if o != Good { EndEffect(s, s, t, o); } else { BadgeRecordedEffect(s, t, b, id); }
  }

  lemma {:induction false} RecordLastEffect(s: State, t: ThreadId)
    requires t in s.threads && s.threads[t].pc.RecordLast?
    ensures Effect(s, t, Good, StepRecord(s, t, Good))
  {
    var pc := s.threads[t].pc;
    var newChapter := ReadingRules.Max(PrevChapter(pc.existing), pc.chapter);
    var last := Lookup(s.lastChapter, pc.slot.series);
    var next := RecordWrite(pc.slot, DecideStatus(pc.status, pc.existing, newChapter, last), newChapter, pc.existing);
    MoveEffect(s, s, t, Good, s.threads[t].(pc := next));
    MoveEffect(s, s.(earned := s.earned + {pc.slot}), t, Good, s.threads[t].(pc := next));
  }

  lemma {:induction false} RecordWriteEffect(s: State, t: ThreadId)
    requires t in s.threads && s.threads[t].pc.RecordWrite?
    ensures Effect(s, t, Good, StepRecord(s, t, Good))
  {
    var pc := s.threads[t].pc;
    var row := UpsertRecord(pc.existing, Lookup(s.records, pc.slot), pc.newStatus, pc.newChapter, s.now);
    MoveEffect(s, s.(records := s.records[pc.slot := row]), t, Good,
               Thread(RecordTrack(pc.slot, pc.existing.None?), TasksAfter(pc.slot, pc.existing, pc.newStatus,
                   pc.newChapter)));
  }

  lemma {:induction false} RecordEffect(s: State, t: ThreadId, o: Outcome)
    requires t in s.threads
    requires var pc := s.threads[t].pc;
             pc.RecordSeries? || pc.RecordFind? || pc.RecordLast? || pc.RecordWrite? || pc.RecordTrack?
    ensures Effect(s, t, o, StepRecord(s, t, o))
  {
    EndEffect(s, s, t, o);
    if o == Good {
      match s.threads[t].pc
      case RecordSeries(slot, status, requested) =>
        if requested >= 0 { MoveEffect(s, s, t, o, s.threads[t].(pc := RecordFind(slot, status, requested))); }
      case RecordFind(slot, status, chapter) =>
        MoveEffect(s, s, t, o, s.threads[t].(pc := RecordLast(slot, status, chapter, Lookup(s.records, slot))));
      case RecordLast(_, _, _, _) => RecordLastEffect(s, t);
      case RecordWrite(_, _, _, _) => RecordWriteEffect(s, t);
      case RecordTrack(_, _) => AdvanceEffect(s, t, o);
    }
  }

  lemma {:induction false} VoteReadEffect(s: State, t: ThreadId)
    requires t in s.threads && s.threads[t].pc.VoteRead?
    ensures Effect(s, t, Good, StepVote(s, t, Good))
  {
    var pc := s.threads[t].pc;
    if !IsPending(s, pc.sub) {
      EndEffect(s, s, t, Good);
    } else if s.now > s.subs[pc.sub].votingEndsAt {
      MoveEffect(s, s, t, Good, s.threads[t].(pc := FinaliseRead(pc.sub, s.subs[pc.sub].votes, None)));
    } else {
      MoveEffect(s, s, t, Good, s.threads[t].(pc := VoteBalance(pc.sub, pc.voter, pc.vote)));
    }
  }

  lemma {:induction false} VoteCastEffect(s: State, t: ThreadId)
    requires t in s.threads && (s.threads[t].pc.VoteBalance? || s.threads[t].pc.VoteUpsert?)
    ensures Effect(s, t, Good, StepVote(s, t, Good))
  {
    var pc := s.threads[t].pc;
    EndEffect(s, s, t, Good);
    if pc.VoteBalance? {
      var row := VoteRow(pc.voter, pc.vote, BalanceOf(s.mirror, pc.voter));
      if row.inkWeight >= MIN_INK_TO_VOTE {
        MoveEffect(s, s, t, Good, s.threads[t].(pc := VoteUpsert(pc.sub, row)));
      }
    } else if pc.sub in s.subs {
      var x := s.subs[pc.sub];
      MoveEffect(s, s.(subs := s.subs[pc.sub := x.(votes := UpsertVote(x.votes, pc.row))]), t, Good,
                 s.threads[t].(pc := VoteRecount(pc.sub)));
    }
  }

  lemma {:induction false} RecountEffect(s: State, t: ThreadId)
    requires t in s.threads && s.threads[t].pc.VoteRecount?
    ensures Effect(s, t, Good, StepVote(s, t, Good))
  {
    var pc := s.threads[t].pc;
    EndEffect(s, s, t, Good);
    if pc.sub in s.subs && TallyOf(s.subs[pc.sub].votes, false).finalisable {
      var votes := s.subs[pc.sub].votes;
      MoveEffect(s, s, t, Good, s.threads[t].(pc := FinaliseRead(pc.sub, votes, Some(AutoApproves(votes)))));
    }
  }

  lemma {:induction false} FinaliseEffect(s: State, t: ThreadId)
    requires t in s.threads && s.threads[t].pc.FinaliseRead?
    ensures Effect(s, t, Good, StepVote(s, t, Good))
  {
    var pc := s.threads[t].pc;
    if !IsPending(s, pc.sub) {
      EndEffect(s, s, t, Good);
    } else if Approves(pc.votes, pc.force) {
      MoveEffect(s, s, t, Good, s.threads[t].(pc := ApproveCheck(pc.sub, s.subs[pc.sub].submitter)));
    } else {
      MoveEffect(s, s, t, Good, s.threads[t].(pc := RejectWrite(pc.sub)));
    }
  }

  lemma {:induction false} AdminApproveEffect(s: State, t: ThreadId)
    requires t in s.threads && s.threads[t].pc.AdminApproveRead?
    ensures Effect(s, t, Good, StepVote(s, t, Good))
  {
    var sub := s.threads[t].pc.sub;
    if !IsPending(s, sub) {
      EndEffect(s, s, t, Good);
    } else {
      MoveEffect(s, s, t, Good, s.threads[t].(pc := ApproveCheck(sub, s.subs[sub].submitter)));
    }
  }

  lemma {:induction false} AdminRejectEffect(s: State, t: ThreadId)
    requires t in s.threads && s.threads[t].pc.AdminRejectRead?
    ensures Effect(s, t, Good, StepVote(s, t, Good))
  {
    var sub := s.threads[t].pc.sub;
    if !IsPending(s, sub) {
      EndEffect(s, s, t, Good);
    } else {
      MoveEffect(s, s, t, Good, s.threads[t].(pc := RejectWrite(sub)));
    }
  }

  lemma {:induction false} RejectEffect(s: State, t: ThreadId)
    requires t in s.threads && s.threads[t].pc.RejectWrite?
    ensures Effect(s, t, Good, StepVote(s, t, Good))
  {
    var sub := s.threads[t].pc.sub;
    EndEffect(s, s, t, Good);
    if sub in s.subs {
      EndEffect(s, s.(subs := s.subs[sub := s.subs[sub].(status := Rejected)]), t, Good);
    }
  }

  lemma {:induction false} VoteEffect(s: State, t: ThreadId, o: Outcome)
    requires t in s.threads
    requires var pc := s.threads[t].pc;
             pc.VoteRead? || pc.VoteBalance? || pc.VoteUpsert? || pc.VoteRecount? || pc.FinaliseRead?
             || pc.RejectWrite? || pc.AdminApproveRead? || pc.AdminRejectRead?
    ensures Effect(s, t, o, StepVote(s, t, o))
  {
    if o != Good {
      EndEffect(s, s, t, o);
    } else {
      var pc := s.threads[t].pc;
      if pc.VoteRead? { VoteReadEffect(s, t); }
      else if pc.VoteBalance? || pc.VoteUpsert? { VoteCastEffect(s, t); }
      else if pc.VoteRecount? { RecountEffect(s, t); }
      else if pc.FinaliseRead? { FinaliseEffect(s, t); }
      else if pc.RejectWrite? { RejectEffect(s, t); }
      else if pc.AdminApproveRead? { AdminApproveEffect(s, t); }
      else { AdminRejectEffect(s, t); }
    }
  }

  lemma {:induction false} OnChainThread(s: State, t: ThreadId, sub: SubmissionId, submitter: UserId, hasBadge: bool)
    requires t in s.threads && ApprovalOutcome(s, sub, submitter, hasBadge).Some?
    ensures var s' := ApproveOnChain(s, t, sub, submitter, hasBadge);
            var badge: Option<Digest> := if hasBadge then None else Some(s.chain.nextId + 1);
            && OthersKept(s, t, s') && t in s'.threads && s'.badgeRows == s.badgeRows
            && s'.threads[t].pc == ApproveWrite(sub, submitter, s.chain.nextId, badge)
            && s'.fate == s.fate[Approval(submitter, sub) := InFlight(t)]
            && s'.badgeFate
               == (if hasBadge then s.badgeFate else s.badgeFate[ContributorBadge(submitter) := InFlight(t)])
  {
  }

  lemma {:induction false} OnChainGrowth(s: State, sub: SubmissionId, submitter: UserId, hasBadge: bool)
    requires ApprovalOutcome(s, sub, submitter, hasBadge).Some?
    ensures var c := ApprovalOutcome(s, sub, submitter, hasBadge).value; var b := ContributorBadge(submitter);
            && Approval(submitter, sub) !in s.chain.registry
            && c.registry == s.chain.registry + {Approval(submitter, sub)}
            && (hasBadge ==> c.badges == s.chain.badges)
            && (!hasBadge ==> b !in s.chain.badges && c.badges == s.chain.badges + {b})
  {
  }

  lemma {:induction false} OnChainEffect(s: State, t: ThreadId, sub: SubmissionId, submitter: UserId, hasBadge: bool)
    requires t in s.threads && s.threads[t].pc == ApproveCall(sub, submitter, hasBadge)
    requires ApprovalOutcome(s, sub, submitter, hasBadge).Some?
    ensures Effect(s, t, Good, ApproveOnChain(s, t, sub, submitter, hasBadge))
  {
    OnChainThread(s, t, sub, submitter, hasBadge);
    OnChainGrowth(s, sub, submitter, hasBadge);
  }

  lemma {:induction false} AdoptedRows(s: State, t: ThreadId, sub: SubmissionId, submitter: UserId,
      digest: Digest, badge: Option<Digest>)
    requires t in s.threads && s.threads[t].pc == ApproveWrite(sub, submitter, digest, badge)
    ensures var s1 := AdoptBadge(s, t, sub, submitter, digest, badge);
            && s1.threads == s.threads[t := Thread(ApproveWrite(sub, submitter, digest, None), s.threads[t].rest)]
            && s1.chain == s.chain && s1.fate == s.fate && s1.subs == s.subs && s1.mirror == s.mirror
            && (forall b :: IsLost(s1.badgeFate, b) ==> IsLost(s.badgeFate, b))
            && RowsEffect(s, t, s1)
  {
    var s1 := AdoptBadge(s, t, sub, submitter, digest, badge);
    if badge.Some? && ContributorBadge(submitter) !in BadgeKeys(s.badgeRows) {
      assert s1.badgeRows == s.badgeRows + [BadgeRow(BadgeNow(s, t).value, badge.value)];
    }
  }

  lemma {:induction false} ApprovalWrote(s: State, t: ThreadId, sub: SubmissionId, submitter: UserId,
      digest: Digest, badge: Option<Digest>)
    requires t in s.threads && s.threads[t].pc == ApproveWrite(sub, submitter, digest, badge)
    requires sub in s.subs && Credit(s.mirror, ApprovalEarning(sub, submitter), digest).Some?
    ensures Wrote(s, t, MarkApproved(RecordKey(AdoptBadge(s, t, sub, submitter, digest, badge), t,
                                               ApprovalEarning(sub, submitter), digest), sub))
  {
    AdoptedRows(s, t, sub, submitter, digest, badge);
    var s1 := AdoptBadge(s, t, sub, submitter, digest, badge);
    var s2 := MarkApproved(RecordKey(s1, t, ApprovalEarning(sub, submitter), digest), sub);
    assert s2.threads == s.threads[t := Thread(Idle, s.threads[t].rest)];
  }

  lemma {:induction false} ApproveWriteEffect(s: State, t: ThreadId, sub: SubmissionId, submitter: UserId,
      digest: Digest, badge: Option<Digest>)
    requires t in s.threads && s.threads[t].pc == ApproveWrite(sub, submitter, digest, badge)
    ensures Effect(s, t, Good, StepApproveWrite(s, t, sub, submitter, digest, badge))
  {
    var e := ApprovalEarning(sub, submitter);
    AdoptedRows(s, t, sub, submitter, digest, badge);
    if sub !in s.subs || Credit(s.mirror, e, digest).None? {
      EndEffect(s, s, t, Good);
    } else {
      ApprovalWrote(s, t, sub, submitter, digest, badge);
      var s2 := MarkApproved(RecordKey(AdoptBadge(s, t, sub, submitter, digest, badge), t, e, digest), sub);
      WroteEndEffect(s, t, s2);
    }
  }

  lemma {:induction false} ApproveCallEffect(s: State, t: ThreadId, sub: SubmissionId, submitter: UserId,
      hasBadge: bool, o: Outcome)
    requires t in s.threads && s.threads[t].pc == ApproveCall(sub, submitter, hasBadge)
    ensures Effect(s, t, o, StepApproveCall(s, t, sub, submitter, hasBadge, o))
  {
    if o == Fails || ApprovalOutcome(s, sub, submitter, hasBadge).None? { EndEffect(s, s, t, o); }
    else if o == Good { OnChainEffect(s, t, sub, submitter, hasBadge); }
  }

  lemma {:induction false} ApproveEffect(s: State, t: ThreadId, o: Outcome)
    requires t in s.threads
    requires var pc := s.threads[t].pc; pc.ApproveCheck? || pc.ApproveCall? || pc.ApproveWrite?
    ensures Effect(s, t, o, StepApprove(s, t, o))
  {
    match s.threads[t].pc
    case ApproveCheck(sub, submitter) =>
      if o == Good {
        var next := ApproveCall(sub, submitter, ContributorBadge(submitter) in BadgeKeys(s.badgeRows));
        MoveEffect(s, s, t, o, s.threads[t].(pc := next));
      } else {
        EndEffect(s, s, t, o);
      }
    case ApproveCall(sub, submitter, hasBadge) =>
      ApproveCallEffect(s, t, sub, submitter, hasBadge, o);
    case ApproveWrite(sub, submitter, digest, badge) =>
      if o == Good { ApproveWriteEffect(s, t, sub, submitter, digest, badge); } else { EndEffect(s, s, t, o); }
  }

  /** Every step of every thread has these effects and no others. */
  lemma {:induction false} StepEffect(s: State, t: ThreadId, o: Outcome)
    requires t in s.threads
    ensures Effect(s, t, o, StepThread(s, t, o))
  {
    var pc := s.threads[t].pc;
    if pc.MintCheck? || pc.MintCall? || pc.MintWrite? { MintEffect(s, t, o); }
    else if pc.BadgeCheck? || pc.BadgeCall? || pc.BadgeWrite? { BadgeStepEffect(s, t, o); }
    else if pc.RecordSeries? || pc.RecordFind? || pc.RecordLast? || pc.RecordWrite?
        || pc.RecordTrack? { RecordEffect(s, t, o); }
    else if pc.ApproveCheck? || pc.ApproveCall? || pc.ApproveWrite? { ApproveEffect(s, t, o); }
    else if pc.Idle? { EndEffect(s, s, t, o); }
    else { VoteEffect(s, t, o); }
  }
}
