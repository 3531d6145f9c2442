/**
  The reward services as they run when nothing interleaves: each method does
  exactly what one thread of the reward machine does when it runs alone.
 */
module RewardServices {
  import opened Wrappers
  import opened Keys
  import opened InkStores
  import opened Tally
  import opened RewardMachine
  import Dao
  import Reading

  /** What the threads share. */
  datatype Stores = Stores(chain: Chain, mirror: Mirror, badgeRows: seq<BadgeRow>, subs: map<SubmissionId, Submission>)

  function StoresOf(s: State): Stores { Stores(s.chain, s.mirror, s.badgeRows, s.subs) }

  /** One thread takes one step per outcome, and no other thread moves. */
  function Alone(s: State, t: ThreadId, outcomes: seq<Outcome>): State
    decreases |outcomes|
  {
    if outcomes == [] then s else Alone(Apply(s, Step(t, outcomes[0])), t, outcomes[1..])
  }

  /** Stores with one thread, about to run from `pc`. */
  function Embed(st: Stores, pc: Pc): State
  {
    INIT.(chain := st.chain, mirror := st.mirror, badgeRows := st.badgeRows, subs := st.subs,
          threads := map[0 := Thread(pc, [])])
  }

  function RunFrom(st: Stores, pc: Pc, outcomes: seq<Outcome>): Stores { StoresOf(Alone(Embed(st, pc), 0, outcomes)) }

  lemma {:induction false} OneStep(s: State, t: ThreadId, o: Outcome, rest: seq<Outcome>)
    ensures Alone(s, t, [o] + rest) == Alone(Apply(s, Step(t, o)), t, rest)
  {
    assert ([o] + rest)[1..] == rest;
  }

  lemma {:induction false} ThreeSteps(s: State, t: ThreadId, a: Outcome, b: Outcome, c: Outcome)
    ensures Alone(s, t, [a, b, c]) == Apply(Apply(Apply(s, Step(t, a)), Step(t, b)), Step(t, c))
  {
    assert [a, b, c] == [a] + [b, c] && [b, c] == [b] + [c] && [c] == [c] + [];
    OneStep(s, t, a, [b, c]);
    OneStep(Apply(s, Step(t, a)), t, b, [c]);
    OneStep(Apply(Apply(s, Step(t, a)), Step(t, b)), t, c, []);
  }

  ghost predicate StepAt(t: ThreadId, run: seq<State>, i: nat)
    requires i + 1 < |run|
  {
    run[i + 1] == Apply(run[i], Step(t, Good))
  }

  function Final(run: seq<State>): State
    requires |run| > 0
  {
    run[|run| - 1]
  }

  /** The states a thread passes through when it runs alone, to its end, and nothing fails. */
  ghost predicate SoloRun(s: State, t: ThreadId, run: seq<State>)
  {
    && |run| > 0 && run[0] == s && t !in Final(run).threads
    && forall i: nat :: i + 1 < |run| ==> StepAt(t, run, i)
  }

  lemma {:induction false} Prepend(s: State, t: ThreadId, s1: State, run: seq<State>)
    requires s1 == Apply(s, Step(t, Good)) && SoloRun(s1, t, run)
    ensures SoloRun(s, t, [s] + run) && Final([s] + run) == Final(run)
  {
    forall i: nat | i + 1 < |[s] + run| ensures StepAt(t, [s] + run, i) {
      if i > 0 {
        assert StepAt(t, run, i - 1);
      }
    }
  }

  // ----- mintEarning and the badge mint, as tasks of a milestone check -----

  /** The stores after a milestone check has worked through its tasks; a rollback or a badge conflict ends it. */
  function TaskStores(st: Stores, tasks: seq<Task>): Stores
    decreases |tasks|
  {
    if tasks == [] then st
    else match tasks[0]
      case InkTask(e) =>
        var m := Reading.Mint(st.chain, st.mirror, e);
        var st1 := st.(chain := m.chain, mirror := m.mirror);
        if m.result.RolledBack? then st1 else TaskStores(st1, tasks[1..])
      case BadgeTask(b) =>
        if b in BadgeKeys(st.badgeRows) then TaskStores(st, tasks[1..])
        else if InkStores.MintBadge(st.chain, b).None? then st
        else TaskStores(BadgeStores(st, b, Good, true), tasks[1..])
  }

  /** The thread is about to start these tasks, or has none left. */
  function AtTasks(s: State, t: ThreadId, tasks: seq<Task>): State
    requires t in s.threads
  {
    if tasks == [] then End(s, t) else s.(threads := s.threads[t := Thread(StartOf(tasks[0]), tasks[1..])])
  }

  lemma {:induction false} MintWriteAlone(s: State, t: ThreadId, e: Earning, digest: Digest, rest: seq<Task>)
    returns (run: seq<State>)
    requires t in s.threads && s.threads[t] == Thread(MintWrite(e, digest), rest)
    ensures SoloRun(s, t, run) && Final(run).records == s.records
    ensures var m := Credit(s.mirror, e, digest);
            StoresOf(Final(run)) == if m.None? then StoresOf(s) else TaskStores(StoresOf(s).(mirror := m.value), rest)
    decreases |rest|, 1
  {
    var s1: State;
    if Credit(s.mirror, e, digest).None? {
      s1 := End(s, t);
      run := [s1];
    } else {
      s1 := AtTasks(RecordKey(s, t, e, digest), t, rest);
      run := TasksAlone(RecordKey(s, t, e, digest), t, rest);
    }
    Prepend(s, t, s1, run);
    run := [s] + run;
  }

  lemma {:induction false} MintCallAlone(s: State, t: ThreadId, e: Earning, rest: seq<Task>)
    returns (run: seq<State>)
    requires t in s.threads && s.threads[t] == Thread(MintCall(e), rest) && !HasRow(s.mirror, e.key)
    ensures SoloRun(s, t, run) && Final(run).records == s.records
    ensures StoresOf(Final(run)) == TaskStores(StoresOf(s), [InkTask(e)] + rest)
    decreases |rest|, 2
  {
    assert ([InkTask(e)] + rest)[1..] == rest;
    var s1: State;
    if Earn(s.chain, e).None? {
      s1 := AtTasks(s, t, rest);
      run := TasksAlone(s, t, rest);
    } else {
      s1 := AcceptKey(s, t, e, MintWrite(e, s.chain.nextId));
      run := MintWriteAlone(s1, t, e, s.chain.nextId, rest);
    }
    Prepend(s, t, s1, run);
    run := [s] + run;
  }

  lemma {:induction false} MintCheckAlone(s: State, t: ThreadId, e: Earning, rest: seq<Task>)
    returns (run: seq<State>)
    requires t in s.threads && s.threads[t] == Thread(MintCheck(e), rest)
    ensures SoloRun(s, t, run) && Final(run).records == s.records
    ensures StoresOf(Final(run)) == TaskStores(StoresOf(s), [InkTask(e)] + rest)
    decreases |rest|, 3
  {
    assert ([InkTask(e)] + rest)[1..] == rest;
    var s1: State;
    if HasRow(s.mirror, e.key) {
      s1 := AtTasks(s, t, rest);
      run := TasksAlone(s, t, rest);
    } else {
      s1 := Goto(s, t, MintCall(e));
      run := MintCallAlone(s1, t, e, rest);
    }
    Prepend(s, t, s1, run);
    run := [s] + run;
  }

  lemma {:induction false} BadgeWriteAlone(s: State, t: ThreadId, b: BadgeKey, id: Digest, rest: seq<Task>)
    returns (run: seq<State>)
    requires t in s.threads && s.threads[t] == Thread(BadgeWrite(b, id), rest)
    ensures SoloRun(s, t, run) && Final(run).records == s.records
    ensures StoresOf(Final(run))
            == TaskStores(StoresOf(s).(badgeRows := s.badgeRows + [BadgeRow(b, id)]), rest)
    decreases |rest|, 1
  {
    BadgeWriteStep(s, t, b, id, Good);
    var s1 := AtTasks(RecordBadge(s, t, b, id, Idle), t, rest);
    run := TasksAlone(RecordBadge(s, t, b, id, Idle), t, rest);
    Prepend(s, t, s1, run);
    run := [s] + run;
  }

  lemma {:induction false} BadgeCallAlone(s: State, t: ThreadId, b: BadgeKey, rest: seq<Task>)
    returns (run: seq<State>)
    requires t in s.threads && s.threads[t] == Thread(BadgeCall(b), rest) && b !in BadgeKeys(s.badgeRows)
    ensures SoloRun(s, t, run) && Final(run).records == s.records
    ensures StoresOf(Final(run)) == TaskStores(StoresOf(s), [BadgeTask(b)] + rest)
    decreases |rest|, 2
  {
    assert ([BadgeTask(b)] + rest)[1..] == rest;
    var s1: State;
    if InkStores.MintBadge(s.chain, b).None? {
      s1 := End(s, t);
      run := [s1];
    } else {
      s1 := AcceptBadge(s, t, b, BadgeWrite(b, s.chain.nextId));
      run := BadgeWriteAlone(s1, t, b, s.chain.nextId, rest);
    }
    Prepend(s, t, s1, run);
    run := [s] + run;
  }

  lemma {:induction false} BadgeCheckAlone(s: State, t: ThreadId, b: BadgeKey, rest: seq<Task>)
    returns (run: seq<State>)
    requires t in s.threads && s.threads[t] == Thread(BadgeCheck(b), rest)
    ensures SoloRun(s, t, run) && Final(run).records == s.records
    ensures StoresOf(Final(run)) == TaskStores(StoresOf(s), [BadgeTask(b)] + rest)
    decreases |rest|, 3
  {
    assert ([BadgeTask(b)] + rest)[1..] == rest;
    var s1: State;
    if b in BadgeKeys(s.badgeRows) {
      s1 := AtTasks(s, t, rest);
      run := TasksAlone(s, t, rest);
    } else {
      s1 := Goto(s, t, BadgeCall(b));
      run := BadgeCallAlone(s1, t, b, rest);
    }
    Prepend(s, t, s1, run);
    run := [s] + run;
  }

  /** A milestone check that runs alone works through its tasks in order, in any state of the machine. */
  lemma {:induction false} TasksAlone(s: State, t: ThreadId, tasks: seq<Task>) returns (run: seq<State>)
    requires t in s.threads
    ensures SoloRun(AtTasks(s, t, tasks), t, run) && Final(run).records == s.records
    ensures StoresOf(Final(run)) == TaskStores(StoresOf(s), tasks)
    decreases |tasks|, 0
  {
    var s1 := AtTasks(s, t, tasks);
    if tasks == [] {
      run := [s1];
    } else {
      assert tasks == [tasks[0]] + tasks[1..];
      match tasks[0]
      case InkTask(e) => run := MintCheckAlone(s1, t, e, tasks[1..]);
      case BadgeTask(b) => run := BadgeCheckAlone(s1, t, b, tasks[1..]);
    }
  }

  /** A failure-free mint is the sequential one, in any state of the machine. */
  lemma {:induction false} MintAlone(s: State, t: ThreadId, e: Earning) returns (run: seq<State>)
    requires t in s.threads && s.threads[t] == Thread(MintCheck(e), [])
    ensures SoloRun(s, t, run)
    ensures var m := Reading.Mint(s.chain, s.mirror, e);
            StoresOf(Final(run)) == StoresOf(s).(chain := m.chain, mirror := m.mirror)
  {
    run := MintCheckAlone(s, t, e, []);
  }

  // ----- Badges and approvals -----

  datatype BadgeResult = AlreadyMinted(objectId: Digest) | MintedBadge(objectId: Digest) | MintFailed

  /** The stores a badge thread that runs alone leaves behind. */
  function BadgeStores(st: Stores, b: BadgeKey, call: Outcome, writes: bool): Stores
  {
    var sent := InkStores.MintBadge(st.chain, b);
    if b in BadgeKeys(st.badgeRows) || call == Fails || sent.None? then st
    else if call == LostReply || !writes then st.(chain := sent.value)
    else st.(chain := sent.value, badgeRows := st.badgeRows + [BadgeRow(b, st.chain.nextId)])
  }

  lemma {:induction false} BadgeWriteStep(s: State, t: ThreadId, b: BadgeKey, id: Digest, w: Outcome)
    requires t in s.threads && s.threads[t].pc == BadgeWrite(b, id)
    ensures Apply(s, Step(t, w))
            == if w != Good then End(s, t) else AtTasks(RecordBadge(s, t, b, id, Idle), t, s.threads[t].rest)
  {
  }

  lemma {:induction false} BadgeStops(s: State, t: ThreadId, b: BadgeKey, call: Outcome, w: Outcome)
    requires t in s.threads && s.threads[t] == Thread(BadgeCall(b), [])
    requires call != Good || InkStores.MintBadge(s.chain, b).None?
    ensures var sent := InkStores.MintBadge(s.chain, b);
            StoresOf(Apply(Apply(s, Step(t, call)), Step(t, w)))
            == if call == Fails || sent.None? then StoresOf(s) else StoresOf(s).(chain := sent.value)
  {
    if call == Fails || InkStores.MintBadge(s.chain, b).None? {
      EndsFor(s, t, w);
    } else {
      EndsFor(AcceptBadge(s, t, b, BadgeWrite(b, s.chain.nextId)), t, w);
    }
  }

  lemma {:induction false} BadgeTail(s: State, t: ThreadId, b: BadgeKey, call: Outcome, writes: bool)
    requires t in s.threads && s.threads[t] == Thread(BadgeCall(b), []) && b !in BadgeKeys(s.badgeRows)
    ensures StoresOf(Apply(Apply(s, Step(t, call)), Step(t, if writes then Good else Fails)))
            == BadgeStores(StoresOf(s), b, call, writes)
  {
    var w := if writes then Good else Fails;
    if call == Good && InkStores.MintBadge(s.chain, b).Some? {
      var s1 := AcceptBadge(s, t, b, BadgeWrite(b, s.chain.nextId));
      BadgeWriteStep(s1, t, b, s.chain.nextId, w);
    } else {
      BadgeStops(s, t, b, call, w);
    }
  }

  lemma {:induction false} BadgeAlone(st: Stores, b: BadgeKey, call: Outcome, writes: bool)
    ensures RunFrom(st, BadgeCheck(b), [Good, call, if writes then Good else Fails]) == BadgeStores(st, b, call, writes)
  {
    var s := Embed(st, BadgeCheck(b));
    ThreeSteps(s, 0, Good, call, if writes then Good else Fails);
    if b !in BadgeKeys(st.badgeRows) {
      BadgeTail(Goto(s, 0, BadgeCall(b)), 0, b, call, writes);
    }
  }

  // What the badge mint and the approval promise, by their effect on the stores.

  ghost predicate HasBadgeRow(rows: seq<BadgeRow>, b: BadgeKey)
  {
    exists i :: 0 <= i < |rows| && rows[i].key == b
  }

  /** The mint is sent unless the mirror has the badge; the chain refuses one it has, and a row needs its reply. */
  ghost predicate BadgeRule(st: Stores, st': Stores, b: BadgeKey, call: Outcome, writes: bool, r: BadgeResult)
  {
    var had := HasBadgeRow(st.badgeRows, b);
    var sent := !had && call != Fails && b !in st.chain.badges;
    && st'.mirror == st.mirror && st'.subs == st.subs
    && st'.chain.registry == st.chain.registry && st'.chain.earnings == st.chain.earnings
    && st'.chain.badges == (if sent then st.chain.badges + {b} else st.chain.badges)
    && (r.AlreadyMinted? <==> had)
    && (had ==> exists i :: 0 <= i < |st.badgeRows| && st.badgeRows[i] == BadgeRow(b, r.objectId))
    && (r.MintedBadge? <==> sent && call == Good && writes)
    && (r.MintedBadge? ==> r.objectId == st.chain.nextId)
    && st'.badgeRows == (if r.MintedBadge? then st.badgeRows + [BadgeRow(b, r.objectId)] else st.badgeRows)
  }

  /** The chain accepts the approval's transaction: its 50 INK, and the contributor badge if the mirror lacks it. */
  ghost predicate ApprovalSent(st: Stores, sub: SubmissionId, submitter: UserId, call: Outcome)
  {
    && call != Fails && Approval(submitter, sub) !in st.chain.registry
    && (HasBadgeRow(st.badgeRows, BadgeKey(submitter, 4, 0)) || BadgeKey(submitter, 4, 0) !in st.chain.badges)
  }

  ghost predicate ApprovalChain(c: Chain, c': Chain, sub: SubmissionId, submitter: UserId, withBadge: bool)
  {
    && c'.registry == c.registry + {Approval(submitter, sub)}
    && c'.earnings == c.earnings + [Earning(submitter, SubmissionApproved, Approval(submitter, sub))]
    && c'.badges == if withBadge then c.badges + {BadgeKey(submitter, 4, 0)} else c.badges
  }

  /** The mirror transaction of an approval: status, claim, 50 INK and the badge row, or nothing. */
  ghost predicate ApprovalRule(st: Stores, st': Stores, sub: SubmissionId, submitter: UserId, call: Outcome, ok: bool)
  {
    var badge, had := BadgeKey(submitter, 4, 0), HasBadgeRow(st.badgeRows, BadgeKey(submitter, 4, 0));
    && (if ApprovalSent(st, sub, submitter, call) then ApprovalChain(st.chain, st'.chain, sub, submitter, !had)
        else st'.chain == st.chain)
    && (!ok ==> st'.mirror == st.mirror && st'.badgeRows == st.badgeRows && st'.subs == st.subs)
    && (ok ==>
          && sub in st.subs && st'.subs.Keys == st.subs.Keys
          && st'.subs[sub] == st.subs[sub].(status := SubmissionStatus.Approved, rewardClaimed := true)
          && (forall x :: x in st.subs && x != sub ==> st'.subs[x] == st.subs[x])
          && Reading.Credited(st.mirror, st'.mirror, Earning(submitter, SubmissionApproved, Approval(submitter, sub)),
                              st.chain.nextId, 50)
          && st'.badgeRows == if had then st.badgeRows else st.badgeRows + [BadgeRow(badge, st.chain.nextId + 1)])
  }

  /** When an approval goes through. */
  ghost predicate ApprovalDone(st: Stores, sub: SubmissionId, submitter: UserId, call: Outcome, writes: bool)
  {
    && ApprovalSent(st, sub, submitter, call) && call == Good && writes
    && sub in st.subs && submitter in st.mirror.inkEarned
  }

  lemma {:induction false} ApprovalFollows(st: Stores, sub: SubmissionId, submitter: UserId, call: Outcome,
      writes: bool)
    ensures ApprovalRule(st, ApprovalStores(st, sub, submitter, call, writes), sub, submitter, call,
                         ApprovalDone(st, sub, submitter, call, writes))
  {
    if ApprovalDone(st, sub, submitter, call, writes) {
      assert st.subs.Keys + {sub} == st.subs.Keys;
    }
  }

  class RewardService {
    var chain: Chain
    var mirror: Mirror
    var badgeRows: seq<BadgeRow>
    var subs: map<SubmissionId, Submission>

    function Value(): Stores
      reads this
    {
      Stores(chain, mirror, badgeRows, subs)
    }

    constructor (st: Stores)
      ensures Value() == st
    {
      chain, mirror, badgeRows, subs := st.chain, st.mirror, st.badgeRows, st.subs;
    }

    method FindBadge(b: BadgeKey) returns (row: Option<BadgeRow>)
      ensures row.Some? <==> b in BadgeKeys(badgeRows)
      ensures row.Some? ==> row.value in badgeRows && row.value.key == b
    {
      for i := 0 to |badgeRows|
        invariant forall j :: 0 <= j < i ==> badgeRows[j].key != b
      {
        if badgeRows[i].key == b {
          return Some(badgeRows[i]);
        }
      }
      row := None;
    }

    /** Badge `mint`: mirror check, chain call, mirror row. */
    method MintBadge(b: BadgeKey, call: Outcome, writes: bool) returns (r: BadgeResult)
      modifies this
      ensures Value() == RunFrom(old(Value()), BadgeCheck(b), [Good, call, if writes then Good else Fails])
      ensures BadgeRule(old(Value()), Value(), b, call, writes, r)
    {
      BadgeAlone(Value(), b, call, writes);
      var existing := FindBadge(b);
      if existing.Some? {
        return AlreadyMinted(existing.value.objectId);
      }
      var id := chain.nextId;
      var sent := InkStores.MintBadge(chain, b);
      if call == Fails || sent.None? {
        return MintFailed;
      }
      chain := sent.value;
      if call == LostReply || !writes {
        return MintFailed;
      }
      badgeRows := badgeRows + [BadgeRow(b, id)];
      r := MintedBadge(id);
    }

    /** The database transaction of an approval. */
    method MirrorApproval(sub: SubmissionId, submitter: UserId, digest: Digest, hasBadge: bool, writes: bool)
      returns (ok: bool)
      requires hasBadge <==> ContributorBadge(submitter) in BadgeKeys(badgeRows)
      modifies this`mirror, this`badgeRows, this`subs
      ensures Value() == if writes then WriteStores(old(Value()), sub, submitter, digest) else old(Value())
      ensures ok <==> writes && sub in old(subs) && submitter in old(mirror).inkEarned
    {
      if !writes || sub !in subs {
        return false;
      }
      var credited := Credit(mirror, ApprovalEarning(sub, submitter), digest);
      if credited.None? {
        return false;
      }
      mirror := credited.value;
      subs := subs[sub := subs[sub].(status := Approved, rewardClaimed := true)];
      if !hasBadge {
        badgeRows := badgeRows + [BadgeRow(ContributorBadge(submitter), digest + 1)];
      }
      ok := true;
    }

    /**
      `_executeApproval`: one chain transaction, then status, ledger, balance,
      passport and badge row in one database transaction.
     */
    method ExecuteApproval(sub: SubmissionId, submitter: UserId, call: Outcome, writes: bool) returns (ok: bool)
      modifies this
      ensures Value() == RunFrom(old(Value()), ApproveCheck(sub, submitter), [Good, call, if writes then Good
          else Fails])
      ensures ok <==> ApprovalDone(old(Value()), sub, submitter, call, writes)
      ensures ApprovalRule(old(Value()), Value(), sub, submitter, call, ok)
    {
      ApprovalFollows(Value(), sub, submitter, call, writes);
      ApprovalAlone(Embed(Value(), ApproveCheck(sub, submitter)), 0, sub, submitter, call, writes);
      var e := ApprovalEarning(sub, submitter);
      var b := ContributorBadge(submitter);
      var existing := FindBadge(b);
      var digest := chain.nextId;
      var sent := EarnAndBadge(chain, e, if existing.Some? then None else Some(b));
      if call == Fails || sent.None? {
        return false;
      }
      chain := sent.value;
      if call == LostReply {
        return false;
      }
      ok := MirrorApproval(sub, submitter, digest, existing.Some?, writes);
    }
  }

  /** The stores an approval thread that runs alone leaves behind, from its chain call on. */
  function CallStores(st: Stores, sub: SubmissionId, submitter: UserId, hasBadge: bool, call: Outcome,
      writes: bool): Stores
  {
    var e, b := ApprovalEarning(sub, submitter), ContributorBadge(submitter);
    var sent := EarnAndBadge(st.chain, e, if hasBadge then None else Some(b));
    if call == Fails || sent.None? then st
    else if call == LostReply || !writes then st.(chain := sent.value)
    else WriteStores(st.(chain := sent.value), sub, submitter, st.chain.nextId)
  }

  function WriteStores(st: Stores, sub: SubmissionId, submitter: UserId, digest: Digest): Stores
  {
    var b := ContributorBadge(submitter);
    var credited := Credit(st.mirror, ApprovalEarning(sub, submitter), digest);
    if sub !in st.subs || credited.None? then st
    else
      st.(mirror := credited.value,
          subs := st.subs[sub := st.subs[sub].(status := SubmissionStatus.Approved, rewardClaimed := true)],
          badgeRows := if b in BadgeKeys(st.badgeRows) then st.badgeRows else st.badgeRows + [BadgeRow(b, digest + 1)])
  }

  function ApprovalStores(st: Stores, sub: SubmissionId, submitter: UserId, call: Outcome, writes: bool): Stores
  {
    CallStores(st, sub, submitter, ContributorBadge(submitter) in BadgeKeys(st.badgeRows), call, writes)
  }

  lemma {:induction false} ApprovalCheckStep(s: State, t: ThreadId, sub: SubmissionId, submitter: UserId)
    requires t in s.threads && s.threads[t].pc == ApproveCheck(sub, submitter)
    ensures Apply(s, Step(t, Good))
            == Goto(s, t, ApproveCall(sub, submitter, ContributorBadge(submitter) in BadgeKeys(s.badgeRows)))
  {
  }

  lemma {:induction false} ApprovalCallStep(s: State, t: ThreadId, sub: SubmissionId, submitter: UserId,
      hasBadge: bool, call: Outcome)
    requires t in s.threads && s.threads[t].pc == ApproveCall(sub, submitter, hasBadge)
    ensures var s' := Apply(s, Step(t, call)); var sent := ApprovalOutcome(s, sub, submitter, hasBadge);
            && s' == (if call == Fails || sent.None? then End(s, t)
                      else if call == LostReply then End(ApproveOnChain(s, t, sub, submitter, hasBadge), t)
                      else ApproveOnChain(s, t, sub, submitter, hasBadge))
  {
  }

  lemma {:induction false} ApprovalWriteStep(s: State, t: ThreadId, sub: SubmissionId, submitter: UserId,
      digest: Digest, badge: Option<Digest>, w: Outcome)
    requires t in s.threads && s.threads[t].pc == ApproveWrite(sub, submitter, digest, badge)
    ensures Apply(s, Step(t, w))
            == if w != Good then End(s, t) else StepApproveWrite(s, t, sub, submitter, digest, badge)
  {
  }

  lemma {:induction false} WriteEffect(s: State, t: ThreadId, sub: SubmissionId, submitter: UserId,
      digest: Digest, badge: Option<Digest>)
    requires t in s.threads
    requires badge == if ContributorBadge(submitter) in BadgeKeys(s.badgeRows) then None else Some(digest + 1)
    ensures var s' := StepApproveWrite(s, t, sub, submitter, digest, badge);
            StoresOf(s') == WriteStores(StoresOf(s), sub, submitter, digest) && t !in s'.threads
  {
  }

  /** A thread that has ended leaves the stores as they are, and takes no further step. */
  lemma {:induction false} EndsFor(s: State, t: ThreadId, o: Outcome)
    requires t in s.threads
    ensures StoresOf(End(s, t)) == StoresOf(s) && t !in End(s, t).threads
    ensures Apply(End(s, t), Step(t, o)) == End(s, t)
  {
  }

  lemma {:induction false} ApprovalStops(s: State, t: ThreadId, sub: SubmissionId, submitter: UserId,
      hasBadge: bool, call: Outcome, w: Outcome)
    requires t in s.threads && s.threads[t].pc == ApproveCall(sub, submitter, hasBadge)
    requires call != Good || ApprovalOutcome(s, sub, submitter, hasBadge).None?
    ensures var s' := Apply(Apply(s, Step(t, call)), Step(t, w));
            StoresOf(s') == CallStores(StoresOf(s), sub, submitter, hasBadge, call, w == Good) && t !in s'.threads
  {
    ApprovalCallStep(s, t, sub, submitter, hasBadge, call);
    if ApprovalOutcome(s, sub, submitter, hasBadge).Some? {
      if call != Fails {
        EndsFor(ApproveOnChain(s, t, sub, submitter, hasBadge), t, w);
      }
    }
    EndsFor(s, t, w);
  }

  lemma {:induction false} ApprovalWrites(s: State, t: ThreadId, sub: SubmissionId, submitter: UserId,
      hasBadge: bool, w: Outcome)
    requires t in s.threads && s.threads[t].pc == ApproveCall(sub, submitter, hasBadge)
    requires hasBadge <==> ContributorBadge(submitter) in BadgeKeys(s.badgeRows)
    requires ApprovalOutcome(s, sub, submitter, hasBadge).Some?
    ensures var s' := Apply(ApproveOnChain(s, t, sub, submitter, hasBadge), Step(t, w));
            StoresOf(s') == CallStores(StoresOf(s), sub, submitter, hasBadge, Good, w == Good) && t !in s'.threads
  {
    var s2, id := ApproveOnChain(s, t, sub, submitter, hasBadge), s.chain.nextId;
    var badge: Option<Digest> := if hasBadge then None else Some(id + 1);
    ApprovalWriteStep(s2, t, sub, submitter, id, badge, w);
    WriteEffect(s2, t, sub, submitter, id, badge);
  }

  lemma {:induction false} ApprovalTail(s: State, t: ThreadId, sub: SubmissionId, submitter: UserId,
      hasBadge: bool, call: Outcome, w: Outcome)
    requires t in s.threads && s.threads[t].pc == ApproveCall(sub, submitter, hasBadge)
    requires hasBadge <==> ContributorBadge(submitter) in BadgeKeys(s.badgeRows)
    ensures var s' := Apply(Apply(s, Step(t, call)), Step(t, w));
            StoresOf(s') == CallStores(StoresOf(s), sub, submitter, hasBadge, call, w == Good) && t !in s'.threads
  {
    if call == Good && ApprovalOutcome(s, sub, submitter, hasBadge).Some? {
      ApprovalCallStep(s, t, sub, submitter, hasBadge, call);
      ApprovalWrites(s, t, sub, submitter, hasBadge, w);
    } else {
      ApprovalStops(s, t, sub, submitter, hasBadge, call, w);
    }
  }

  /** An approval thread that runs alone, in any state of the machine. */
  lemma {:induction false} ApprovalAlone(s: State, t: ThreadId, sub: SubmissionId, submitter: UserId,
      call: Outcome, writes: bool)
    requires t in s.threads && s.threads[t].pc == ApproveCheck(sub, submitter)
    ensures var s' := Alone(s, t, [Good, call, if writes then Good else Fails]);
            StoresOf(s') == ApprovalStores(StoresOf(s), sub, submitter, call, writes) && t !in s'.threads
  {
    ThreeSteps(s, t, Good, call, if writes then Good else Fails);
    var hasBadge := ContributorBadge(submitter) in BadgeKeys(s.badgeRows);
    ApprovalCheckStep(s, t, sub, submitter);
    ApprovalTail(Goto(s, t, ApproveCall(sub, submitter, hasBadge)), t, sub, submitter, hasBadge, call,
                 if writes then Good else Fails);
  }

  // ----- Votes -----

  /** The chain accepts the approval and the submitter has a passport to credit. */
  predicate ApprovalSucceeds(st: Stores, sub: SubmissionId, submitter: UserId)
  {
    var e, b := ApprovalEarning(sub, submitter), ContributorBadge(submitter);
    && EarnAndBadge(st.chain, e, if b in BadgeKeys(st.badgeRows) then None else Some(b)).Some?
    && Credit(st.mirror, e, st.chain.nextId).Some?
  }

  /** Whether the approval of `sub` would go through now. */
  function ChainOkFor(s: State, sub: SubmissionId): bool
  {
    sub in s.subs && ApprovalSucceeds(StoresOf(s), sub, s.subs[sub].submitter)
  }

  lemma {:induction false} ApprovedSubs(s: State, t: ThreadId, sub: SubmissionId) returns (run: seq<State>)
    requires t in s.threads && sub in s.subs && s.threads[t].pc == ApproveCheck(sub, s.subs[sub].submitter)
    ensures SoloRun(s, t, run) && Final(run).subs == Dao.Executed(s.subs, sub, ChainOkFor(s, sub))
  {
    ApprovalAlone(s, t, sub, s.subs[sub].submitter, Good, true);
    run := ThreeStepRun(s, t);
  }

  lemma {:induction false} ThreeStepRun(s: State, t: ThreadId) returns (run: seq<State>)
    requires t !in Alone(s, t, [Good, Good, Good]).threads
    ensures SoloRun(s, t, run) && Final(run) == Alone(s, t, [Good, Good, Good])
  {
    ThreeSteps(s, t, Good, Good, Good);
    var s1 := Apply(s, Step(t, Good));
    var s2 := Apply(s1, Step(t, Good));
    var s3 := Apply(s2, Step(t, Good));
    Prepend(s2, t, s3, [s3]);
    Prepend(s1, t, s2, [s2] + [s3]);
    Prepend(s, t, s1, [s1] + ([s2] + [s3]));
    run := [s] + ([s1] + ([s2] + [s3]));
  }

  lemma {:induction false} RejectAlone(s: State, t: ThreadId, sub: SubmissionId) returns (run: seq<State>)
    requires t in s.threads && s.threads[t].pc == RejectWrite(sub) && sub in s.subs
    ensures SoloRun(s, t, run) && Final(run).subs == Dao.Reject(s.subs, sub)
  {
    var s1 := End(s.(subs := Dao.Reject(s.subs, sub)), t);
    Prepend(s, t, s1, [s1]);
    run := [s] + [s1];
  }

  /** Where the first step of `_finalise` leads. */
  function FinaliseNext(s: State, t: ThreadId, sub: SubmissionId, votes: seq<VoteRow>, force: Option<bool>): State
    requires t in s.threads
  {
    if sub !in s.subs || s.subs[sub].status != Pending then End(s, t)
    else if if force.Some? then force.value else LazyApproves(votes) then Goto(s, t, ApproveCheck(sub,
        s.subs[sub].submitter))
    else Goto(s, t, RejectWrite(sub))
  }

  lemma {:induction false} FinaliseTail(s: State, t: ThreadId, sub: SubmissionId, votes: seq<VoteRow>,
      force: Option<bool>)
    returns (run: seq<State>)
    requires t in s.threads
    ensures SoloRun(FinaliseNext(s, t, sub, votes, force), t, run)
    ensures Final(run).subs == Dao.Finalised(s.subs, sub, votes, force, ChainOkFor(s, sub))
  {
    var s1 := FinaliseNext(s, t, sub, votes, force);
    if sub !in s.subs || s.subs[sub].status != Pending {
      run := [s1];
    } else if if force.Some? then force.value else LazyApproves(votes) {
      run := ApprovedSubs(s1, t, sub);
    } else {
      run := RejectAlone(s1, t, sub);
    }
  }

  /** `_finalise` alone is the sequential one. */
  lemma {:induction false} FinaliseAlone(s: State, t: ThreadId, sub: SubmissionId, votes: seq<VoteRow>,
      force: Option<bool>)
    returns (run: seq<State>)
    requires t in s.threads && s.threads[t].pc == FinaliseRead(sub, votes, force)
    ensures SoloRun(s, t, run) && Final(run).subs == Dao.Finalised(s.subs, sub, votes, force, ChainOkFor(s, sub))
  {
    run := FinaliseTail(s, t, sub, votes, force);
    Prepend(s, t, FinaliseNext(s, t, sub, votes, force), run);
    run := [s] + run;
  }

  /** Where the first step of `castVote` leads. */
  function VoteNext(s: State, t: ThreadId, sub: SubmissionId, voter: UserId, vote: int): State
    requires t in s.threads
  {
    if sub !in s.subs || s.subs[sub].status != Pending then End(s, t)
    else if s.now > s.subs[sub].votingEndsAt then Goto(s, t, FinaliseRead(sub, s.subs[sub].votes, None))
    else Goto(s, t, VoteBalance(sub, voter, vote))
  }

  /** The sequential request this thread stands for. */
  function VoteRequest(s: State, sub: SubmissionId, voter: UserId, vote: int): Dao.Op
  {
    Dao.CastVote(sub, voter, vote, BalanceOf(s.mirror, voter), s.now, ChainOkFor(s, sub))
  }

  lemma {:induction false} VoteTail(s: State, t: ThreadId, sub: SubmissionId, voter: UserId, vote: int)
    returns (run: seq<State>)
    requires t in s.threads
    ensures SoloRun(VoteNext(s, t, sub, voter, vote), t, run)
    ensures Final(run).subs == Dao.VoteOn(s.subs, VoteRequest(s, sub, voter, vote))
  {
    var s1 := VoteNext(s, t, sub, voter, vote);
    if sub !in s.subs || s.subs[sub].status != Pending {
      run := [s1];
    } else if s.now > s.subs[sub].votingEndsAt {
      run := FinaliseAlone(s1, t, sub, s.subs[sub].votes, None);
    } else {
      run := BalanceAlone(s1, t, sub, voter, vote);
    }
  }

  /**
    `castVote` alone is the sequential one; the balance is the mirror's and the approval succeeds when
    its stores allow it.
   */
  lemma {:induction false} VoteAlone(s: State, t: ThreadId, sub: SubmissionId, voter: UserId, vote: int)
    returns (run: seq<State>)
    requires t in s.threads && s.threads[t].pc == VoteRead(sub, voter, vote)
    ensures SoloRun(s, t, run)
    ensures Final(run).subs == Dao.VoteOn(s.subs, VoteRequest(s, sub, voter, vote))
  {
    run := VoteTail(s, t, sub, voter, vote);
    Prepend(s, t, VoteNext(s, t, sub, voter, vote), run);
    run := [s] + run;
  }

  lemma {:induction false} BalanceStep(s: State, t: ThreadId, sub: SubmissionId, voter: UserId, vote: int)
    requires t in s.threads && s.threads[t].pc == VoteBalance(sub, voter, vote)
    ensures var balance := BalanceOf(s.mirror, voter);
            Apply(s, Step(t, Good))
            == if balance < MIN_INK_TO_VOTE then End(s, t) else Goto(s, t, VoteUpsert(sub, VoteRow(voter, vote,
                balance)))
  {
  }

  /** The submissions after a stored vote has been recounted. */
  function Recounted(subs: map<SubmissionId, Submission>, sub: SubmissionId, chainOk: bool): map<SubmissionId,
      Submission>
    requires sub in subs
  {
    var votes := subs[sub].votes;
    if TallyOf(votes, false).finalisable then Dao.Finalised(subs, sub, votes, Some(AutoApproves(votes)),
        chainOk) else subs
  }

  /** From the balance check on: the vote is stored, recounted, and finalised if decisive. */
  lemma {:induction false} BalanceAlone(s: State, t: ThreadId, sub: SubmissionId, voter: UserId, vote: int)
    returns (run: seq<State>)
    requires t in s.threads && s.threads[t].pc == VoteBalance(sub, voter, vote) && sub in s.subs
    ensures var row := VoteRow(voter, vote, BalanceOf(s.mirror, voter));
            SoloRun(s, t, run)
            && Final(run).subs == if row.inkWeight < MIN_INK_TO_VOTE then s.subs
                                  else Recounted(Dao.WithVote(s.subs, sub, row), sub, ChainOkFor(s, sub))
  {
    var row := VoteRow(voter, vote, BalanceOf(s.mirror, voter));
    BalanceStep(s, t, sub, voter, vote);
    var s1: State;
    if row.inkWeight < MIN_INK_TO_VOTE {
      s1 := End(s, t);
      run := [s1];
    } else {
      s1 := Goto(s, t, VoteUpsert(sub, row));
      run := UpsertAlone(s1, t, sub, row);
    }
    Prepend(s, t, s1, run);
    run := [s] + run;
  }

  lemma {:induction false} UpsertAlone(s: State, t: ThreadId, sub: SubmissionId, row: VoteRow)
    returns (run: seq<State>)
    requires t in s.threads && s.threads[t].pc == VoteUpsert(sub, row) && sub in s.subs
    ensures SoloRun(s, t, run)
    ensures Final(run).subs == Recounted(Dao.WithVote(s.subs, sub, row), sub, ChainOkFor(s, sub))
  {
    var s1 := Goto(s.(subs := Dao.WithVote(s.subs, sub, row)), t, VoteRecount(sub));
    run := RecountAlone(s1, t, sub);
    Prepend(s, t, s1, run);
    run := [s] + run;
  }

  lemma {:induction false} RecountAlone(s: State, t: ThreadId, sub: SubmissionId) returns (run: seq<State>)
    requires t in s.threads && s.threads[t].pc == VoteRecount(sub) && sub in s.subs
    ensures SoloRun(s, t, run) && Final(run).subs == Recounted(s.subs, sub, ChainOkFor(s, sub))
  {
    var votes := s.subs[sub].votes;
    var s1: State;
    if TallyOf(votes, false).finalisable {
      s1 := Goto(s, t, FinaliseRead(sub, votes, Some(AutoApproves(votes))));
      run := FinaliseAlone(s1, t, sub, votes, Some(AutoApproves(votes)));
    } else {
      s1 := End(s, t);
      run := [s1];
    }
    Prepend(s, t, s1, run);
    run := [s] + run;
  }
}
