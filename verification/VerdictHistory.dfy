/** What a verdict says about the votes of an interleaved run, if no admin gave it. */
module VerdictHistory {
  import opened Wrappers
  import opened Keys
  import opened InkStores
  import opened Tally
  import opened RewardMachine
  import opened RewardFrames
  import opened RewardEffects
  import opened VerdictRaces
  import Dao

  /** The votes allow a rejection: a rejecting quorum, or the deadline has passed without an approving tally. */
  predicate Refusable(s: State, x: SubmissionId)
  {
    && x in s.subs
    && var sub := s.subs[x];
       Dao.RejectingTally(sub.votes) || (s.now > sub.votingEndsAt && !Dao.ApprovingTally(sub.votes))
  }

  predicate Approvable(s: State, x: SubmissionId) { x in s.subs && Dao.ApprovingTally(s.subs[x].votes) }

  /** What a run has shown so far; the last two are the submissions an admin acted on. */
  datatype Seen = Seen(
    approvable: set<SubmissionId>, refusable: set<SubmissionId>,
    adminApproved: set<SubmissionId>, adminRejected: set<SubmissionId>)

  predicate SpawnsApprove(a: Action, x: SubmissionId) { a.Spawn? && a.request == AdminApprove(x) }
  predicate SpawnsReject(a: Action, x: SubmissionId) { a.Spawn? && a.request == AdminReject(x) }

  function Noted(seen: Seen, s: State, a: Action): Seen
  {
    Seen(seen.approvable + (set x | x in s.subs && Approvable(s, x)),
         seen.refusable + (set x | x in s.subs && Refusable(s, x)),
         seen.adminApproved + if a.Spawn? && a.request.AdminApprove? then {a.request.sub} else {},
         seen.adminRejected + if a.Spawn? && a.request.AdminReject? then {a.request.sub} else {})
  }

  function SeenIn(actions: seq<Action>): Seen
  {
    if actions == [] then Seen({}, {}, {}, {})
    else
      var n := |actions| - 1;
      Noted(SeenIn(actions[..n]), Run(actions[..n]), actions[n])
  }

  predicate MayApprove(seen: Seen, x: SubmissionId) { x in seen.approvable || x in seen.adminApproved }
  predicate MayReject(seen: Seen, x: SubmissionId) { x in seen.refusable || x in seen.adminRejected }

  /** A thread on its way to a verdict was justified by votes or by an admin. */
  predicate PcJustified(seen: Seen, pc: Pc)
  {
    && (pc.FinaliseRead? ==>
          if Approves(pc.votes, pc.force) then pc.sub in seen.approvable else pc.sub in seen.refusable)
    && (pc.ApproveCheck? || pc.ApproveCall? || pc.ApproveWrite? ==> MayApprove(seen, pc.sub))
    && (pc.RejectWrite? ==> MayReject(seen, pc.sub))
    && (pc.AdminApproveRead? ==> pc.sub in seen.adminApproved)
    && (pc.AdminRejectRead? ==> pc.sub in seen.adminRejected)
  }

  ghost predicate ThreadsJustified(seen: Seen, threads: map<ThreadId, Thread>)
  {
    forall t :: t in threads ==> PcJustified(seen, threads[t].pc)
  }

  ghost predicate VerdictsJustified(seen: Seen, subs: map<SubmissionId, Submission>)
  {
    forall x :: x in subs ==>
      && (subs[x].status == Approved ==> MayApprove(seen, x))
      && (subs[x].status == Rejected ==> MayReject(seen, x))
  }

  predicate SeenGrows(seen: Seen, seen': Seen)
  {
    && seen.approvable <= seen'.approvable && seen.refusable <= seen'.refusable
    && seen.adminApproved <= seen'.adminApproved && seen.adminRejected <= seen'.adminRejected
  }

  /** The decision of `_finalise` on the votes it was given is one the votes allow. */
  lemma {:induction false} FinaliseJustified(s: State, pc: Pc, next: Pc, o: Outcome, seen: Seen)
    requires EntersVote(s, pc, next, o) && next.FinaliseRead?
    requires forall x :: x in s.subs && Approvable(s, x) ==> x in seen.approvable
    requires forall x :: x in s.subs && Refusable(s, x) ==> x in seen.refusable
    ensures PcJustified(seen, next)
  {
    AutoAndLazyAgree(next.votes, false);
    FinalisableExactly(next.votes, false);
  }

  lemma {:induction false} NextJustified(s: State, t: ThreadId, o: Outcome, seen: Seen, seen': Seen)
    requires t in s.threads && PcJustified(seen, s.threads[t].pc) && SeenGrows(seen, seen')
    requires forall x :: x in s.subs && Approvable(s, x) ==> x in seen'.approvable
    requires forall x :: x in s.subs && Refusable(s, x) ==> x in seen'.refusable
    requires t in StepThread(s, t, o).threads
    ensures PcJustified(seen', StepThread(s, t, o).threads[t].pc)
  {
    StepEffect(s, t, o);
    var next := StepThread(s, t, o).threads[t].pc;
    if next.FinaliseRead? {
      FinaliseJustified(s, s.threads[t].pc, next, o, seen');
    }
  }

  lemma {:induction false} StepJustified(s: State, t: ThreadId, o: Outcome, seen: Seen, seen': Seen)
    requires t in s.threads && ThreadsJustified(seen, s.threads) && SeenGrows(seen, seen')
    requires forall x :: x in s.subs && Approvable(s, x) ==> x in seen'.approvable
    requires forall x :: x in s.subs && Refusable(s, x) ==> x in seen'.refusable
    ensures ThreadsJustified(seen', StepThread(s, t, o).threads)
  {
    StepEffect(s, t, o);
    var s' := StepThread(s, t, o);
    forall u | u in s'.threads ensures PcJustified(seen', s'.threads[u].pc) {
      if u == t {
        NextJustified(s, t, o, seen, seen');
      } else {
        assert PcJustified(seen, s.threads[u].pc);
      }
    }
  }

  lemma {:induction false} SpawnJustified(s: State, a: Action, seen: Seen)
    requires ThreadsJustified(seen, s.threads) && !(a.Step? && a.t in s.threads)
    ensures ThreadsJustified(Noted(seen, s, a), Apply(s, a).threads)
  {
    var s' := Apply(s, a);
    forall u | u in s'.threads ensures PcJustified(Noted(seen, s, a), s'.threads[u].pc) {
      IdleThreads(s, a, u);
      if u in s.threads {
        assert PcJustified(seen, s.threads[u].pc);
      }
    }
  }

  /** A status changes only by the write of a justified thread. */
  lemma {:induction false} StatusJustified(s: State, a: Action, seen: Seen, x: SubmissionId)
    requires ThreadsJustified(seen, s.threads) && VerdictsJustified(seen, s.subs) && x in Apply(s, a).subs
    ensures Apply(s, a).subs[x].status == Approved ==> MayApprove(seen, x)
    ensures Apply(s, a).subs[x].status == Rejected ==> MayReject(seen, x)
  {
    if a.Step? && a.t in s.threads {
      StepFrame(s, a.t, a.outcome);
      assert PcJustified(seen, s.threads[a.t].pc);
    } else {
      IdleStatus(s, a, x);
    }
  }

  lemma {:induction false} IdleStatus(s: State, a: Action, x: SubmissionId)
    requires !(a.Step? && a.t in s.threads) && x in Apply(s, a).subs
    ensures x in s.subs ==> Apply(s, a).subs[x] == s.subs[x]
    ensures x !in s.subs ==> Apply(s, a).subs[x].status == Pending
  {
  }

  lemma {:induction false} RunJustified(actions: seq<Action>)
    ensures ThreadsJustified(SeenIn(actions), Run(actions).threads)
    ensures VerdictsJustified(SeenIn(actions), Run(actions).subs)
    decreases |actions|
  {
    if actions != [] {
      var n := |actions| - 1;
      RunJustified(actions[..n]);
      var s, a, seen := Run(actions[..n]), actions[n], SeenIn(actions[..n]);
      if a.Step? && a.t in s.threads {
        StepJustified(s, a.t, a.outcome, seen, Noted(seen, s, a));
      } else {
        SpawnJustified(s, a, seen);
      }
      forall x | x in Run(actions).subs
        ensures Run(actions).subs[x].status == Approved ==> MayApprove(SeenIn(actions), x)
        ensures Run(actions).subs[x].status == Rejected ==> MayReject(SeenIn(actions), x)
      {
        StatusJustified(s, a, seen, x);
      }
    }
  }

  // ----- From what was seen to when it was seen -----

  lemma {:induction false} SeenApprovable(actions: seq<Action>, x: SubmissionId) returns (i: nat)
    requires MayApprove(SeenIn(actions), x)
    requires forall j :: 0 <= j < |actions| ==> !SpawnsApprove(actions[j], x)
    ensures i <= |actions| && Approvable(Run(actions[..i]), x)
    decreases |actions|
  {
    assert actions != [];
    var n := |actions| - 1;
    if MayApprove(SeenIn(actions[..n]), x) {
      i := SeenApprovable(actions[..n], x);
      assert actions[..n][..i] == actions[..i];
    } else {
      assert !SpawnsApprove(actions[n], x);
      i := n;
    }
  }

  lemma {:induction false} SeenRefusable(actions: seq<Action>, x: SubmissionId) returns (i: nat)
    requires MayReject(SeenIn(actions), x)
    requires forall j :: 0 <= j < |actions| ==> !SpawnsReject(actions[j], x)
    ensures i <= |actions| && Refusable(Run(actions[..i]), x)
    decreases |actions|
  {
    assert actions != [];
    var n := |actions| - 1;
    if MayReject(SeenIn(actions[..n]), x) {
      i := SeenRefusable(actions[..n], x);
      assert actions[..n][..i] == actions[..i];
    } else {
      assert !SpawnsReject(actions[n], x);
      i := n;
    }
  }

  /**
    However requests interleave, fail or die: an approval that no admin asked
    for means that at some moment the stored votes had a quorum with at least
    60 % approving INK.
   */
  lemma {:induction false} InterleavedApprovalSound(actions: seq<Action>, x: SubmissionId) returns (i: nat)
    requires HasStatus(Run(actions), x, Approved)
    requires forall j :: 0 <= j < |actions| ==> !SpawnsApprove(actions[j], x)
    ensures i <= |actions| && x in Run(actions[..i]).subs && Dao.ApprovingTally(Run(actions[..i]).subs[x].votes)
  {
    RunJustified(actions);
    i := SeenApprovable(actions, x);
  }

  /** And a rejection that no admin asked for: a rejecting quorum, or a passed deadline without an approving tally. */
  lemma {:induction false} InterleavedRejectionSound(actions: seq<Action>, x: SubmissionId) returns (i: nat)
    requires HasStatus(Run(actions), x, Rejected)
    requires forall j :: 0 <= j < |actions| ==> !SpawnsReject(actions[j], x)
    ensures i <= |actions| && Refusable(Run(actions[..i]), x)
  {
    RunJustified(actions);
    i := SeenRefusable(actions, x);
  }
}
