/** The inductive invariant of the reward machine, one predicate per concern. */
module RewardInvariant {
  import opened Wrappers
  import opened Sums
  import opened Keys
  import opened InkStores
  import opened ReadingRules
  import opened Tally
  import opened RewardMachine

  /** The part of the state that a thread's program counter makes claims about. */
  datatype Context = Context(
    subs: map<SubmissionId, Submission>, submitted: map<Slot, nat>, earned: set<Slot>, mirror: Mirror)

  function ContextOf(s: State): Context { Context(s.subs, s.submitted, s.earned, s.mirror) }

  /** Each key in `seen` has one fate; threads, the done keys and the fates agree. */
  ghost predicate FatesAgree<K(!new)>(fate: map<K, Fate>, seen: set<K>, done: set<K>, held: map<ThreadId, K>)
  {
    && fate.Keys == seen
    && (forall k :: k in done <==> k in fate && fate[k] == Recorded)
    && (forall t :: t in held ==> held[t] in fate && fate[held[t]] == InFlight(t))
    && (forall k :: k in fate && fate[k].InFlight? ==> fate[k].thread in held && held[fate[k].thread] == k)
  }

  function HeldKeys(threads: map<ThreadId, Thread>): map<ThreadId, InkKey>
  {
    map t | t in threads && Held(threads[t]).Some? :: Held(threads[t]).value
  }

  function HeldBadges(threads: map<ThreadId, Thread>): map<ThreadId, BadgeKey>
  {
    map t | t in threads && HeldBadge(threads[t]).Some? :: HeldBadge(threads[t]).value
  }

  ghost predicate FateOk(s: State)
  {
    FatesAgree(s.fate, s.chain.registry, s.mirror.ledger.Keys, HeldKeys(s.threads))
  }

  ghost predicate DistinctRows(rows: seq<BadgeRow>)
  {
    forall i, j :: 0 <= i < j < |rows| ==> rows[i].key != rows[j].key
  }

  ghost predicate BadgeFateOk(s: State)
  {
    && FatesAgree(s.badgeFate, s.chain.badges, BadgeKeys(s.badgeRows), HeldBadges(s.threads))
    && DistinctRows(s.badgeRows)
  }

  /** A key that some request justifies. */
  ghost predicate KeyOk(c: Context, k: InkKey)
  {
    match k
    case Approval(u, x) => SubmitterOk(c, x, u)
    case _ =>
      var slot := Slot(k.user, k.series);
      slot in c.submitted && Justifies(k, true, c.submitted[slot], slot in c.earned)
  }

  ghost predicate SubmitterOk(c: Context, sub: SubmissionId, u: UserId) { sub in c.subs && c.subs[sub].submitter == u }

  ghost predicate EarningOk(c: Context, e: Earning) { Matches(e) && KeyOk(c, e.key) }

  /** Reading rewards are never approval keys. */
  ghost predicate MintOk(c: Context, e: Earning) { EarningOk(c, e) && !e.key.Approval? }

  ghost predicate TaskOk(c: Context, task: Task) { task.InkTask? ==> MintOk(c, task.e) }

  ghost predicate RecordOk(submitted: map<Slot, nat>, slot: Slot, r: Option<Record>)
  {
    r.Some? ==> slot in submitted && r.value.currentChapter <= submitted[slot]
  }

  ghost predicate PcOk(c: Context, pc: Pc)
  {
    match pc
    case MintCheck(e) => MintOk(c, e)
    case MintCall(e) => MintOk(c, e)
    case MintWrite(e, _) => MintOk(c, e)
    case RecordSeries(slot, _, requested) => requested >= 0 ==> slot in c.submitted && requested <= c.submitted[slot]
    case RecordFind(slot, _, chapter) => slot in c.submitted && chapter <= c.submitted[slot]
    case RecordLast(slot, _, chapter, existing) =>
      slot in c.submitted && chapter <= c.submitted[slot] && RecordOk(c.submitted, slot, existing)
    case RecordWrite(slot, newStatus, newChapter, existing) =>
      && slot in c.submitted && newChapter <= c.submitted[slot]
      && (newStatus == Completed && !WasCompleted(existing) ==> slot in c.earned)
    case VoteUpsert(_, row) => row.inkWeight <= BalanceOf(c.mirror, row.voter)
    case ApproveCheck(sub, u) => SubmitterOk(c, sub, u)
    case ApproveCall(sub, u, _) => SubmitterOk(c, sub, u)
    case ApproveWrite(sub, u, _, _) => SubmitterOk(c, sub, u)
    case _ => true
  }

  ghost predicate ThreadOk(c: Context, th: Thread)
  {
    PcOk(c, th.pc) && forall i :: 0 <= i < |th.rest| ==> TaskOk(c, th.rest[i])
  }

  ghost predicate ThreadsOk(c: Context, threads: map<ThreadId, Thread>)
  {
    forall t :: t in threads ==> ThreadOk(c, threads[t])
  }

  ghost predicate KeysOk(c: Context, registry: set<InkKey>) { forall k :: k in registry ==> KeyOk(c, k) }

  ghost predicate RecordsOk(submitted: map<Slot, nat>, records: map<Slot, Record>)
  {
    forall slot :: slot in records ==> RecordOk(submitted, slot, Some(records[slot]))
  }

  ghost predicate VotesOk(m: Mirror, votes: seq<VoteRow>)
  {
    && UniqueVoters(votes)
    && forall v :: v in votes ==> v.inkWeight <= BalanceOf(m, v.voter)
  }

  /** rewardClaimed is true exactly when the approval's ledger row exists. */
  ghost predicate SubOk(m: Mirror, x: SubmissionId, sub: Submission)
  {
    VotesOk(m, sub.votes) && (sub.rewardClaimed <==> Approval(sub.submitter, x) in m.ledger)
  }

  ghost predicate SubsOk(m: Mirror, subs: map<SubmissionId, Submission>)
  {
    forall x :: x in subs ==> SubOk(m, x, subs[x])
  }

  ghost predicate Inv(s: State)
  {
    && ChainOk(s.chain) && MirrorOk(s.mirror)
    && FateOk(s) && BadgeFateOk(s)
    && ThreadsOk(ContextOf(s), s.threads) && KeysOk(ContextOf(s), s.chain.registry)
    && RecordsOk(s.submitted, s.records) && SubsOk(s.mirror, s.subs)
  }

  lemma {:induction false} InitInv()
    ensures Inv(INIT)
  {
    forall u
      ensures MintedOnChain(INIT.chain, u) == SumOver(INIT.chain.registry, KeyShare(u))
      ensures BalanceOf(INIT.mirror, u) == LedgerSum(INIT.mirror, u) && EarnedOf(INIT.mirror, u)
          == LedgerSum(INIT.mirror, u)
    {
      assert INIT.mirror.ledger.Keys == {};
    }
  }

  // ----- What a context may grow by -----

  /** Claims about a context survive this. */
  ghost predicate Grows(c: Context, d: Context)
  {
    && (forall x :: x in c.subs ==> x in d.subs && d.subs[x].submitter == c.subs[x].submitter)
    && (forall slot :: slot in c.submitted ==> slot in d.submitted && c.submitted[slot] <= d.submitted[slot])
    && c.earned <= d.earned
    && (forall u :: BalanceOf(c.mirror, u) <= BalanceOf(d.mirror, u))
  }

  lemma {:induction false} ContextGrows(c: Context, d: Context, threads: map<ThreadId, Thread>, registry: set<InkKey>)
    requires Grows(c, d)
    ensures ThreadsOk(c, threads) ==> ThreadsOk(d, threads)
    ensures KeysOk(c, registry) ==> KeysOk(d, registry)
  {
    if ThreadsOk(c, threads) {
      assert forall t :: t in threads ==> ThreadOk(d, threads[t]);
    }
    if KeysOk(c, registry) {
      assert forall k :: k in registry ==> KeyOk(d, k);
    }
  }

  // ----- Held keys of an updated thread map -----

  lemma {:induction false} HeldAfterUpdate(threads: map<ThreadId, Thread>, t: ThreadId, th: Thread)
    ensures HeldKeys(threads[t := th])
            == if Held(th).Some? then HeldKeys(threads)[t := Held(th).value] else HeldKeys(threads) - {t}
    ensures HeldBadges(threads[t := th])
            == if HeldBadge(th).Some? then HeldBadges(threads)[t := HeldBadge(th).value] else HeldBadges(threads) - {t}
  {
  }

  lemma {:induction false} SameHeldKey(threads: map<ThreadId, Thread>, t: ThreadId, th: Thread)
    requires t in threads && Held(th) == Held(threads[t])
    ensures HeldKeys(threads[t := th]) == HeldKeys(threads)
  {
  }

  lemma {:induction false} HeldAfterRemoval(threads: map<ThreadId, Thread>, t: ThreadId)
    ensures HeldKeys(threads - {t}) == HeldKeys(threads) - {t}
    ensures HeldBadges(threads - {t}) == HeldBadges(threads) - {t}
  {
  }

  // ----- Fates of one key under one event -----

  lemma {:induction false} FateAccepted<K(!new)>(fate: map<K, Fate>, seen: set<K>, done: set<K>,
      held: map<ThreadId, K>, t: ThreadId, k: K)
    requires FatesAgree(fate, seen, done, held) && k !in seen && t !in held
    ensures FatesAgree(fate[k := InFlight(t)], seen + {k}, done, held[t := k])
  {
    var f := fate[k := InFlight(t)];
    assert f.Keys == seen + {k};
    forall j | j in f && f[j].InFlight? ensures f[j].thread in held[t := k] && held[t := k][f[j].thread] == j {
      if j != k { assert fate[j] == f[j]; }
    }
  }

  lemma {:induction false} FateRecorded<K(!new)>(fate: map<K, Fate>, seen: set<K>, done: set<K>,
      held: map<ThreadId, K>, t: ThreadId)
    requires FatesAgree(fate, seen, done, held) && t in held
    ensures FatesAgree(fate[held[t] := Recorded], seen, done + {held[t]}, held - {t})
    ensures held[t] !in done
  {
    var f := fate[held[t] := Recorded];
    assert f.Keys == seen;
  }

  lemma {:induction false} FateLost<K(!new)>(fate: map<K, Fate>, seen: set<K>, done: set<K>,
      held: map<ThreadId, K>, t: ThreadId)
    requires FatesAgree(fate, seen, done, held) && t in held
    ensures FatesAgree(fate[held[t] := Lost], seen, done, held - {t})
  {
    var f := fate[held[t] := Lost];
    assert f.Keys == seen;
  }

  lemma {:induction false} FateUnchanged<K(!new)>(fate: map<K, Fate>, seen: set<K>, done: set<K>,
      held: map<ThreadId, K>, t: ThreadId)
    requires FatesAgree(fate, seen, done, held) && t !in held
    ensures FatesAgree(fate, seen, done, held - {t})
  {
    assert held - {t} == held;
  }
}
