/**
  The reward protocol as a state machine.  Every request is a thread with a
  program counter; one step of a thread is one awaited database query, one
  database transaction, or one chain call.  Threads interleave arbitrarily, a
  query or call can fail, a chain reply can be lost after the chain committed,
  and a thread can die between any two steps.

  `fate`, `badgeFate`, `submitted` and `earned` are history: no branch reads them.
 */
module RewardMachine {
  import opened Wrappers
  import opened Keys
  import opened InkStores
  import opened ReadingRules
  import opened Tally

  type ThreadId = nat

  datatype BadgeRow = BadgeRow(key: BadgeKey, objectId: Digest)

  /** Work a reading update leaves for its milestone check, in order. */
  datatype Task = InkTask(e: Earning) | BadgeTask(badge: BadgeKey)

  datatype Pc =
    | Idle
    // mintEarning
    | MintCheck(e: Earning)
    | MintCall(e: Earning)
    | MintWrite(e: Earning, digest: Digest)
    // badges mint
    | BadgeCheck(badge: BadgeKey)
    | BadgeCall(badge: BadgeKey)
    | BadgeWrite(badge: BadgeKey, objectId: Digest)
    // upsertRecord
    | RecordSeries(slot: Slot, status: Status, requested: int)
    | RecordFind(slot: Slot, status: Status, chapter: nat)
    | RecordLast(slot: Slot, status: Status, chapter: nat, existing: Option<Record>)
    | RecordWrite(slot: Slot, newStatus: Status, newChapter: nat, existing: Option<Record>)
    | RecordTrack(slot: Slot, isNew: bool)
    // castVote
    | VoteRead(sub: SubmissionId, voter: UserId, vote: int)
    | VoteBalance(sub: SubmissionId, voter: UserId, vote: int)
    | VoteUpsert(sub: SubmissionId, row: VoteRow)
    | VoteRecount(sub: SubmissionId)
    // _finalise
    | FinaliseRead(sub: SubmissionId, votes: seq<VoteRow>, force: Option<bool>)
    | RejectWrite(sub: SubmissionId)
    // _executeApproval
    | ApproveCheck(sub: SubmissionId, submitter: UserId)
    | ApproveCall(sub: SubmissionId, submitter: UserId, alreadyHasBadge: bool)
    | ApproveWrite(sub: SubmissionId, submitter: UserId, digest: Digest, badgeObject: Option<Digest>)
    // adminApprove, adminReject
    | AdminApproveRead(sub: SubmissionId)
    | AdminRejectRead(sub: SubmissionId)

  datatype Thread = Thread(pc: Pc, rest: seq<Task>)

  /** What became of a key after the chain accepted it. */
  datatype Fate = InFlight(thread: ThreadId) | Recorded | Lost

  datatype State = State(
    chain: Chain,
    mirror: Mirror,
    badgeRows: seq<BadgeRow>,
    records: map<Slot, Record>,
    subs: map<SubmissionId, Submission>,
    liveSeries: set<SeriesId>,
    lastChapter: map<SeriesId, real>,
    now: int,
    threads: map<ThreadId, Thread>,
    fate: map<InkKey, Fate>,
    badgeFate: map<BadgeKey, Fate>,
    submitted: map<Slot, nat>,
    earned: set<Slot>)

  datatype Request =
    | UpsertRequest(slot: Slot, status: Status, chapter: int)
    | CastVote(sub: SubmissionId, voter: UserId, vote: int)
    | AdminApprove(sub: SubmissionId)
    | AdminReject(sub: SubmissionId)

  /**
    Good: the step works.  Fails: it throws without effect.  LostReply: the chain executed, the caller
    sees an error.
   */
  datatype Outcome = Good | Fails | LostReply

  datatype Action =
    | Spawn(t: ThreadId, request: Request)
    | Step(t: ThreadId, outcome: Outcome)
    | Crash(t: ThreadId)
    | DeleteRecord(slot: Slot)
    | NewPassport(user: UserId)
    | NewSubmission(sub: SubmissionId, submitter: UserId, votingEndsAt: int)
    | SetSeries(series: SeriesId, live: bool)
    | SetLastChapter(series: SeriesId, last: Option<real>)
    | Tick(now: int)

  const INIT: State := State(
    Chain({}, [], {}, [], 0), Mirror(map[], map[], map[]), [], map[], map[], {}, map[], 0,
    map[], map[], map[], map[], {})

  // ----- Threads -----

  /** The ink key whose chain success this thread still has to mirror. */
  function Held(th: Thread): Option<InkKey>
  {
    match th.pc
    case MintWrite(e, _) => Some(e.key)
    case ApproveWrite(sub, submitter, _, _) => Some(Approval(submitter, sub))
    case _ => None
  }

  function HeldBadge(th: Thread): Option<BadgeKey>
  {
    match th.pc
    case BadgeWrite(b, _) => Some(b)
    case ApproveWrite(_, submitter, _, Some(_)) => Some(ContributorBadge(submitter))
    case _ => None
  }

  function ContributorBadge(u: UserId): BadgeKey { BadgeKey(u, CONTRIBUTOR, SUBMISSION_APPROVED) }

  function MarkLost<K>(fate: map<K, Fate>, held: Option<K>): map<K, Fate>
  {
    if held.Some? then fate[held.value := Lost] else fate
  }

  /** The thread is gone: it returned, threw, or its process died. */
  function End(s: State, t: ThreadId): State
    requires t in s.threads
  {
    var th := s.threads[t];
    s.(threads := s.threads - {t}, fate := MarkLost(s.fate, Held(th)), badgeFate := MarkLost(s.badgeFate,
        HeldBadge(th)))
  }

  function Goto(s: State, t: ThreadId, pc: Pc): State
    requires t in s.threads
  {
    s.(threads := s.threads[t := s.threads[t].(pc := pc)])
  }

  function StartOf(task: Task): Pc
  {
    match task
    case InkTask(e) => MintCheck(e)
    case BadgeTask(b) => BadgeCheck(b)
  }

  /** On to the next task of the milestone check, if there is one. */
  function Advance(s: State, t: ThreadId): State
    requires t in s.threads
  {
    var rest := s.threads[t].rest;
    if rest == [] then End(s, t)
    else s.(threads := s.threads[t := Thread(StartOf(rest[0]), rest[1..])])
  }

  function BadgeKeys(rows: seq<BadgeRow>): set<BadgeKey> { set i | 0 <= i < |rows| :: rows[i].key }

  // ----- The four steps that change a store -----

  /** The chain accepted a key; the thread goes on to mirror it. */
  function AcceptKey(s: State, t: ThreadId, e: Earning, pc: Pc): State
    requires t in s.threads && Earn(s.chain, e).Some?
  {
    Goto(s.(chain := Earn(s.chain, e).value, fate := s.fate[e.key := InFlight(t)]), t, pc)
  }

  function AcceptBadge(s: State, t: ThreadId, b: BadgeKey, pc: Pc): State
    requires t in s.threads && MintBadge(s.chain, b).Some?
  {
    Goto(s.(chain := MintBadge(s.chain, b).value, badgeFate := s.badgeFate[b := InFlight(t)]), t, pc)
  }

  /** The ledger, balance and passport rows of one earning. */
  function RecordKey(s: State, t: ThreadId, e: Earning, digest: Digest): State
    requires t in s.threads && Credit(s.mirror, e, digest).Some?
  {
    Goto(s.(mirror := Credit(s.mirror, e, digest).value, fate := s.fate[e.key := Recorded]), t, Idle)
  }

  function RecordBadge(s: State, t: ThreadId, b: BadgeKey, id: Digest, pc: Pc): State
    requires t in s.threads
  {
    Goto(s.(badgeRows := s.badgeRows + [BadgeRow(b, id)], badgeFate := s.badgeFate[b := Recorded]), t, pc)
  }

  // ----- mintEarning -----

  function StepMintCall(s: State, t: ThreadId, e: Earning, o: Outcome): State
    requires t in s.threads
  {
    if o == Fails then End(s, t)
    else match Earn(s.chain, e)
      // EDuplicateIdempotencyKey: the conflict is swallowed and the next reward follows;
      // an unrecognised error ends the check.
      case None => if o == Good then Advance(s, t) else End(s, t)
      case Some(_) =>
        var s1 := AcceptKey(s, t, e, MintWrite(e, s.chain.nextId));
        if o == Good then s1 else End(s1, t)
  }

  function StepMintWrite(s: State, t: ThreadId, e: Earning, digest: Digest): State
    requires t in s.threads
  {
    match Credit(s.mirror, e, digest)
    case None => End(s, t)
    case Some(_) => Advance(RecordKey(s, t, e, digest), t)
  }

  function StepMint(s: State, t: ThreadId, o: Outcome): State
    requires t in s.threads
  {
    match s.threads[t].pc
    case MintCheck(e) =>
      if o != Good then End(s, t)
      else if HasRow(s.mirror, e.key) then Advance(s, t) else Goto(s, t, MintCall(e))
    case MintCall(e) => StepMintCall(s, t, e, o)
    case MintWrite(e, digest) =>
      if o != Good then End(s, t) else StepMintWrite(s, t, e, digest)
    case _ => s
  }

  // ----- badges mint -----

  function StepBadgeCall(s: State, t: ThreadId, b: BadgeKey, o: Outcome): State
    requires t in s.threads
  {
    if o == Fails then End(s, t)
    else match MintBadge(s.chain, b)
      case None => End(s, t)
      case Some(_) =>
        var s1 := AcceptBadge(s, t, b, BadgeWrite(b, s.chain.nextId));
        if o == Good then s1 else End(s1, t)
  }

  function StepBadge(s: State, t: ThreadId, o: Outcome): State
    requires t in s.threads
  {
    match s.threads[t].pc
    case BadgeCheck(b) =>
      if o != Good then End(s, t)
      else if b in BadgeKeys(s.badgeRows) then Advance(s, t) else Goto(s, t, BadgeCall(b))
    case BadgeCall(b) => StepBadgeCall(s, t, b, o)
    case BadgeWrite(b, id) =>
      if o != Good then End(s, t)
      else Advance(RecordBadge(s, t, b, id, Idle), t)
    case _ => s
  }

  // ----- upsertRecord -----

  function InkTasks(es: seq<Earning>): (r: seq<Task>)
    ensures |r| == |es| && forall i :: 0 <= i < |es| ==> r[i] == InkTask(es[i])
  {
    if es == [] then [] else [InkTask(es[0])] + InkTasks(es[1..])
  }

  /** Rewards first, then the completion badge, then the first-chapter badge. */
  function TasksAfter(slot: Slot, existing: Option<Record>, newStatus: Status, newChapter: nat): seq<Task>
  {
    var earned := newStatus == Completed && !WasCompleted(existing);
    InkTasks(Rewards(slot.user, slot.series, PrevChapter(existing), newChapter, existing.None?,
                     WasCompleted(existing), newStatus == Completed))
    + (if earned then [BadgeTask(BadgeKey(slot.user, READING_ACHIEVEMENT, SERIES_COMPLETIONIST))] else [])
    + (if existing.None? then [BadgeTask(BadgeKey(slot.user, READING_ACHIEVEMENT, FIRST_CHAPTER))] else [])
  }

  function StepRecord(s: State, t: ThreadId, o: Outcome): State
    requires t in s.threads
  {
    if o != Good then End(s, t)
    else match s.threads[t].pc
      case RecordSeries(slot, status, requested) =>
        if slot.series !in s.liveSeries || requested < 0 then End(s, t)
        else Goto(s, t, RecordFind(slot, status, requested))
      case RecordFind(slot, status, chapter) =>
        Goto(s, t, RecordLast(slot, status, chapter, Lookup(s.records, slot)))
      case RecordLast(slot, status, chapter, existing) =>
        var newChapter := ReadingRules.Max(PrevChapter(existing), chapter);
        var last := Lookup(s.lastChapter, slot.series);
        var earns := status == Completed && !WasCompleted(existing) && ReachedEnd(newChapter, last);
        var s1 := if earns then s.(earned := s.earned + {slot}) else s;
        Goto(s1, t, RecordWrite(slot, DecideStatus(status, existing, newChapter, last), newChapter, existing))
      case RecordWrite(slot, newStatus, newChapter, existing) =>
        var row := UpsertRecord(existing, Lookup(s.records, slot), newStatus, newChapter, s.now);
        var s1 := s.(records := s.records[slot := row]);
        s1.(threads := s1.threads[t := Thread(RecordTrack(slot, existing.None?), TasksAfter(slot, existing,
            newStatus, newChapter))])
      case RecordTrack(slot, isNew) =>
        if isNew && slot.user !in s.mirror.inkEarned then End(s, t) else Advance(s, t)
      case _ => s
  }

  // ----- castVote, _finalise, adminApprove, adminReject -----

  function StepVote(s: State, t: ThreadId, o: Outcome): State
    requires t in s.threads
  {
    if o != Good then End(s, t)
    else match s.threads[t].pc
      case VoteRead(sub, voter, vote) =>
        if sub !in s.subs || s.subs[sub].status != Pending then End(s, t)
        else if s.now > s.subs[sub].votingEndsAt then Goto(s, t, FinaliseRead(sub, s.subs[sub].votes, None))
        else Goto(s, t, VoteBalance(sub, voter, vote))
      case VoteBalance(sub, voter, vote) =>
        var balance := BalanceOf(s.mirror, voter);
        if balance < MIN_INK_TO_VOTE then End(s, t)
        else Goto(s, t, VoteUpsert(sub, VoteRow(voter, vote, balance)))
      case VoteUpsert(sub, row) =>
        if sub !in s.subs then End(s, t)
        else
          var x := s.subs[sub];
          Goto(s.(subs := s.subs[sub := x.(votes := UpsertVote(x.votes, row))]), t, VoteRecount(sub))
      case VoteRecount(sub) =>
        if sub !in s.subs then End(s, t)
        else
          var votes := s.subs[sub].votes;
          if TallyOf(votes, false).finalisable then Goto(s, t, FinaliseRead(sub, votes, Some(AutoApproves(votes))))
          else End(s, t)
      case FinaliseRead(sub, votes, force) =>
        if sub !in s.subs || s.subs[sub].status != Pending then End(s, t)
        else
          var approve := if force.Some? then force.value else LazyApproves(votes);
          if approve then Goto(s, t, ApproveCheck(sub, s.subs[sub].submitter)) else Goto(s, t, RejectWrite(sub))
      case RejectWrite(sub) =>
        if sub !in s.subs then End(s, t)
        else End(s.(subs := s.subs[sub := s.subs[sub].(status := Rejected)]), t)
      case AdminApproveRead(sub) =>
        if sub !in s.subs || s.subs[sub].status != Pending then End(s, t)
        else Goto(s, t, ApproveCheck(sub, s.subs[sub].submitter))
      case AdminRejectRead(sub) =>
        if sub !in s.subs || s.subs[sub].status != Pending then End(s, t)
        else Goto(s, t, RejectWrite(sub))
      case _ => s
  }

  // ----- _executeApproval -----

  function ApprovalEarning(sub: SubmissionId, submitter: UserId): Earning
  {
    Earning(submitter, SubmissionApproved, Approval(submitter, sub))
  }

  function ApprovalOutcome(s: State, sub: SubmissionId, submitter: UserId, hasBadge: bool): Option<Chain>
  {
    EarnAndBadge(s.chain, ApprovalEarning(sub, submitter), if hasBadge then None else Some(ContributorBadge(submitter)))
  }

  /** The badge half of the transaction, after the earn half. */
  function WithBadge(s: State, t: ThreadId, sub: SubmissionId, submitter: UserId, id: Digest, hasBadge: bool): State
    requires t in s.threads && (hasBadge || MintBadge(s.chain, ContributorBadge(submitter)).Some?)
  {
    if hasBadge then s
    else AcceptBadge(s, t, ContributorBadge(submitter), ApproveWrite(sub, submitter, id, Some(id + 1)))
  }

  function ApproveOnChain(s: State, t: ThreadId, sub: SubmissionId, submitter: UserId, hasBadge: bool): (s': State)
    requires t in s.threads && ApprovalOutcome(s, sub, submitter, hasBadge).Some?
    ensures s'.chain == ApprovalOutcome(s, sub, submitter, hasBadge).value && t in s'.threads
  {
    var id := s.chain.nextId;
    WithBadge(AcceptKey(s, t, ApprovalEarning(sub, submitter), ApproveWrite(sub, submitter, id, None)),
              t, sub, submitter, id, hasBadge)
  }

  /** One transaction on chain: `earn`, and `mint` unless the mirror already has the badge row. */
  function StepApproveCall(s: State, t: ThreadId, sub: SubmissionId, submitter: UserId, hasBadge: bool,
      o: Outcome): State
    requires t in s.threads
  {
    if o == Fails || ApprovalOutcome(s, sub, submitter, hasBadge).None? then End(s, t)
    else
      var s' := ApproveOnChain(s, t, sub, submitter, hasBadge);
      if o == Good then s' else End(s', t)
  }

  /** The badge half of the approval transaction: a row is added only if none exists. */
  function AdoptBadge(s: State, t: ThreadId, sub: SubmissionId, submitter: UserId, digest: Digest,
      badgeObject: Option<Digest>): State
    requires t in s.threads
  {
    var b := ContributorBadge(submitter);
    if badgeObject.None? then s
    else if b in BadgeKeys(s.badgeRows) then Goto(s, t, ApproveWrite(sub, submitter, digest, None))
    else RecordBadge(s, t, b, badgeObject.value, ApproveWrite(sub, submitter, digest, None))
  }

  function MarkApproved(s: State, sub: SubmissionId): State
    requires sub in s.subs
  {
    s.(subs := s.subs[sub := s.subs[sub].(status := Approved, rewardClaimed := true)])
  }

  /** Status, claim, ledger row, credit and badge row in one database transaction. */
  function StepApproveWrite(s: State, t: ThreadId, sub: SubmissionId, submitter: UserId, digest: Digest,
      badgeObject: Option<Digest>): State
    requires t in s.threads
  {
    var e := ApprovalEarning(sub, submitter);
    if sub !in s.subs || Credit(s.mirror, e, digest).None? then End(s, t)
    else End(MarkApproved(RecordKey(AdoptBadge(s, t, sub, submitter, digest, badgeObject), t, e, digest), sub), t)
  }

  function StepApprove(s: State, t: ThreadId, o: Outcome): State
    requires t in s.threads
  {
    match s.threads[t].pc
    case ApproveCheck(sub, submitter) =>
      if o != Good then End(s, t)
      else Goto(s, t, ApproveCall(sub, submitter, ContributorBadge(submitter) in BadgeKeys(s.badgeRows)))
    case ApproveCall(sub, submitter, hasBadge) => StepApproveCall(s, t, sub, submitter, hasBadge, o)
    case ApproveWrite(sub, submitter, digest, badgeObject) =>
      if o != Good then End(s, t) else StepApproveWrite(s, t, sub, submitter, digest, badgeObject)
    case _ => s
  }

  // ----- Runs -----

  function StepThread(s: State, t: ThreadId, o: Outcome): State
    requires t in s.threads
  {
    var pc := s.threads[t].pc;
    if pc.MintCheck? || pc.MintCall? || pc.MintWrite? then StepMint(s, t, o)
    else if pc.BadgeCheck? || pc.BadgeCall? || pc.BadgeWrite? then StepBadge(s, t, o)
    else if pc.RecordSeries? || pc.RecordFind? || pc.RecordLast? || pc.RecordWrite? || pc.RecordTrack?
        then StepRecord(s, t, o)
    else if pc.ApproveCheck? || pc.ApproveCall? || pc.ApproveWrite? then StepApprove(s, t, o)
    else if pc.Idle? then End(s, t)
    else StepVote(s, t, o)
  }

  function FirstPc(r: Request): Pc
  {
    match r
    case UpsertRequest(slot, status, chapter) => RecordSeries(slot, status, chapter)
    case CastVote(sub, voter, vote) => VoteRead(sub, voter, vote)
    case AdminApprove(sub) => AdminApproveRead(sub)
    case AdminReject(sub) => AdminRejectRead(sub)
  }

  /** The largest chapter submitted per slot, whether or not the request succeeds. */
  function NoteSubmitted(submitted: map<Slot, nat>, r: Request): map<Slot, nat>
  {
    if r.UpsertRequest? && r.chapter >= 0 then
      submitted[r.slot := if r.slot in submitted then ReadingRules.Max(submitted[r.slot], r.chapter) else r.chapter]
    else submitted
  }

  function Apply(s: State, a: Action): State
  {
    match a
    case Spawn(t, r) =>
      if t in s.threads then s
      else s.(threads := s.threads[t := Thread(FirstPc(r), [])], submitted := NoteSubmitted(s.submitted, r))
    case Step(t, o) => if t in s.threads then StepThread(s, t, o) else s
    case Crash(t) => if t in s.threads then End(s, t) else s
    case DeleteRecord(slot) =>
      if slot in s.records && slot.user in s.mirror.inkEarned then s.(records := s.records - {slot}) else s
    case NewPassport(u) =>
      if u in s.mirror.inkEarned then s else s.(mirror := s.mirror.(inkEarned := s.mirror.inkEarned[u := 0]))
    case NewSubmission(sub, submitter, ends) =>
      if sub in s.subs then s else s.(subs := s.subs[sub := Submission(submitter, Pending, false, [], ends)])
    case SetSeries(series, live) =>
      s.(liveSeries := if live then s.liveSeries + {series} else s.liveSeries - {series})
    case SetLastChapter(series, last) =>
      s.(lastChapter := if last.Some? then s.lastChapter[series := last.value] else s.lastChapter - {series})
    case Tick(now) => s.(now := now)
  }

  /** Any sequence of actions is an interleaving. */
  function Run(actions: seq<Action>): State
  {
    if actions == [] then INIT else Apply(Run(actions[..|actions| - 1]), actions[|actions| - 1])
  }
}
