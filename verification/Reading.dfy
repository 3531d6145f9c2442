/**
  The reading service with one request at a time and no failing calls: which
  reward keys a sequence of updates, deletes and re-adds mints, and what a
  COMPLETED record guarantees.
 */
module Reading {
  import opened Wrappers
  import opened Keys
  import opened InkStores
  import opened ReadingRules

  datatype Error = SeriesNotFound | NegativeChapter | RecordNotFound | PassportMissing

  /** What a successful `mintEarning` returns. */
  datatype Receipt = Receipt(digest: Digest, amount: nat, newBalance: nat, newLevel: nat)

  /** How one `mintEarning` call ends. */
  datatype MintResult = Cached(receipt: Receipt) | AlreadyMinted | Minted(receipt: Receipt) | RolledBack

  datatype World = World(
    chain: Chain, mirror: Mirror,
    records: map<Slot, Record>,
    live: set<SeriesId>, last: map<SeriesId, real>)

  datatype Stores = Stores(chain: Chain, mirror: Mirror, result: MintResult)

  datatype Both = Both(chain: Chain, mirror: Mirror)

  function ReceiptFor(m: Mirror, e: Earning, digest: Digest, amount: nat): Receipt
  {
    Receipt(digest, amount, BalanceOf(m, e.user), LevelOf(EarnedOf(m, e.user)))
  }

  // ----- mintEarning -----

  /** Mirror check, chain call, mirror transaction. */
  function Mint(chain: Chain, mirror: Mirror, e: Earning): Stores
  {
    if HasRow(mirror, e.key) then
      var row := mirror.ledger[e.key];
      Stores(chain, mirror, Cached(ReceiptFor(mirror, e, row.digest.value, row.amount)))
    else match Earn(chain, e)
      case None => Stores(chain, mirror, AlreadyMinted)
      case Some(c) =>
        match Credit(mirror, e, chain.nextId)
        case None => Stores(c, mirror, RolledBack)
        case Some(m) => Stores(c, m, Minted(ReceiptFor(m, e, chain.nextId, Amount(e.trigger))))
  }

  // What `mintEarning` promises, by its effect on the stores and the numbers it returns.

  /** The levels begin at 0, 500, 2000, 6000, 15000 and 40000 INK. */
  predicate LevelHolds(level: nat, total: nat)
  {
    || (level == 1 && total < 500) || (level == 2 && 500 <= total < 2000)
    || (level == 3 && 2000 <= total < 6000) || (level == 4 && 6000 <= total < 15000)
    || (level == 5 && 15000 <= total < 40000) || (level == 6 && 40000 <= total)
  }

  function Worth(t: Trigger): nat
  {
    if t.ChapterRead? then 10 else if t.SeriesComplete? then 100 else 50
  }

  predicate SameExcept<K, V(==)>(m: map<K, V>, m': map<K, V>, k: K)
  {
    m'.Keys == m.Keys + {k} && forall j :: j in m && j != k ==> m'[j] == m[j]
  }

  /** One new ledger row for the key, and the amount added to the balance and to the passport total. */
  predicate Credited(m: Mirror, m': Mirror, e: Earning, digest: Digest, amount: nat)
  {
    && SameExcept(m.ledger, m'.ledger, e.key)
    && SameExcept(m.balances, m'.balances, e.user) && SameExcept(m.inkEarned, m'.inkEarned, e.user)
    && m'.ledger[e.key].digest == Some(digest)
    && (e.key !in m.ledger ==> m'.ledger[e.key] == LedgerRow(e.user, e.trigger, amount, Some(digest)))
    && (e.key in m.ledger ==> m'.ledger[e.key] == m.ledger[e.key].(digest := Some(digest)))
    && m'.balances[e.user] == (if e.user in m.balances then m.balances[e.user] else 0) + amount
    && e.user in m.inkEarned && m'.inkEarned[e.user] == m.inkEarned[e.user] + amount
  }

  predicate ReceiptHolds(m: Mirror, u: UserId, r: Receipt)
  {
    && r.newBalance == (if u in m.balances then m.balances[u] else 0)
    && LevelHolds(r.newLevel, if u in m.inkEarned then m.inkEarned[u] else 0)
  }

  /** A call of `mintEarning` that took the stores from (c, m) to (c', m') and ended with `r`. */
  predicate MintOutcome(c: Chain, m: Mirror, e: Earning, c': Chain, m': Mirror, r: MintResult)
  {
    var recorded := e.key in m.ledger && m.ledger[e.key].digest.Some?;
    && (r.Cached? <==> recorded)
    && (r.AlreadyMinted? <==> !recorded && e.key in c.registry)
    && (r.RolledBack? <==> !recorded && e.key !in c.registry && e.user !in m.inkEarned)
    && (r.Cached? || r.AlreadyMinted? ==> c' == c && m' == m)
    && (r.RolledBack? ==> m' == m)
    && (r.RolledBack? || r.Minted? ==>
          c'.registry == c.registry + {e.key} && c'.earnings == c.earnings + [e] && c'.badges == c.badges)
    && (r.Cached? ==>
          m.ledger[e.key].digest == Some(r.receipt.digest) && r.receipt.amount == m.ledger[e.key].amount)
    && (r.Minted? ==>
          && r.receipt.digest == c.nextId && r.receipt.amount == Worth(e.trigger)
          && Credited(m, m', e, r.receipt.digest, r.receipt.amount))
    && (r.Cached? || r.Minted? ==> ReceiptHolds(m', e.user, r.receipt))
  }

  lemma {:induction false} MintExactly(chain: Chain, mirror: Mirror, e: Earning)
    ensures var s := Mint(chain, mirror, e); MintOutcome(chain, mirror, e, s.chain, s.mirror, s.result)
  {
    var c := Earn(chain, e);
  }

  /** A retry of a successful mint changes nothing and returns the same receipt. */
  lemma {:induction false} RetryReturnsReceipt(chain: Chain, mirror: Mirror, e: Earning)
    requires e.key !in mirror.ledger && Mint(chain, mirror, e).result.Minted?
    ensures var s := Mint(chain, mirror, e);
            Mint(s.chain, s.mirror, e) == s.(result := Cached(s.result.receipt))
  {
    var s := Mint(chain, mirror, e);
    assert s.mirror.ledger[e.key].digest == Some(chain.nextId);
  }

  /** Rewards fire in order; a conflict is swallowed, any other error stops the loop. */
  function Fire(chain: Chain, mirror: Mirror, es: seq<Earning>): Both
    decreases |es|
  {
    if es == [] then Both(chain, mirror)
    else
      var s := Mint(chain, mirror, es[0]);
      if s.result == RolledBack then Both(s.chain, s.mirror) else Fire(s.chain, s.mirror, es[1..])
  }

  /** With a passport, a conflict never stops the loop: every reward ends up recorded or on chain. */
  lemma {:induction false} FireAttemptsAll(chain: Chain, mirror: Mirror, es: seq<Earning>, e: Earning)
    requires e in es && forall d :: d in es ==> d.user in mirror.inkEarned
    ensures HasRow(mirror, e.key) || e.key in Fire(chain, mirror, es).chain.registry
    decreases |es|
  {
    var s := Mint(chain, mirror, es[0]);
    MintExactly(chain, mirror, es[0]);
    FireGrows(s.chain, s.mirror, es[1..]);
    if e == es[0] {
      if !HasRow(mirror, e.key) {
        assert e.key in s.chain.registry;
      }
    } else {
      assert e in es[1..];
      FireAttemptsAll(s.chain, s.mirror, es[1..], e);
    }
  }

  lemma {:induction false} FireGrows(chain: Chain, mirror: Mirror, es: seq<Earning>)
    ensures chain.registry <= Fire(chain, mirror, es).chain.registry
    decreases |es|
  {
    if es != [] {
      var s := Mint(chain, mirror, es[0]);
      FireGrows(s.chain, s.mirror, es[1..]);
    }
  }

  /** A rolled-back mirror transaction ends the loop: nothing after that reward is minted. */
  lemma {:induction false} FireStopsAtRollback(chain: Chain, mirror: Mirror, es: seq<Earning>, i: nat)
    requires i < |es| && es[i].user !in mirror.inkEarned
    requires es[i].key !in chain.registry && !HasRow(mirror, es[i].key)
    requires forall j :: 0 <= j < i ==> HasRow(mirror, es[j].key) || es[j].key in chain.registry
    ensures Fire(chain, mirror, es).mirror == mirror
    ensures Fire(chain, mirror, es).chain.registry == chain.registry + {es[i].key}
    ensures Fire(chain, mirror, es).chain.earnings == chain.earnings + [es[i]]
    decreases |es|
  {
    MintExactly(chain, mirror, es[0]);
    if i > 0 {
      assert es[1..][i - 1] == es[i];
      FireStopsAtRollback(chain, mirror, es[1..], i - 1);
    }
  }

  // ----- Requests -----

  datatype Op =
    | Upsert(slot: Slot, status: Status, chapter: int, now: int)
    | Delete(slot: Slot)
    | SetLive(series: SeriesId, live: bool)
    | SetLast(series: SeriesId, last: Option<real>)

  predicate Accepted(w: World, op: Op) { op.Upsert? && op.slot.series in w.live && op.chapter >= 0 }

  function NewChapter(w: World, op: Op): nat
    requires Accepted(w, op)
  {
    Max(PrevChapter(Lookup(w.records, op.slot)), op.chapter)
  }

  function NewStatus(w: World, op: Op): Status
    requires Accepted(w, op)
  {
    DecideStatus(op.status, Lookup(w.records, op.slot), NewChapter(w, op), Lookup(w.last, op.slot.series))
  }

  /** This update turns a record COMPLETED. */
  predicate Earns(w: World, op: Op)
  {
    Accepted(w, op) && NewStatus(w, op) == Completed && !WasCompleted(Lookup(w.records, op.slot))
  }

  function OpRewards(w: World, op: Op): seq<Earning>
    requires Accepted(w, op)
  {
    var existing := Lookup(w.records, op.slot);
    Rewards(op.slot.user, op.slot.series, PrevChapter(existing), NewChapter(w, op), existing.None?,
            WasCompleted(existing), NewStatus(w, op) == Completed)
  }

  function WriteRecord(w: World, op: Op): World
    requires Accepted(w, op)
  {
    var existing := Lookup(w.records, op.slot);
    w.(records := w.records[op.slot := UpsertRecord(existing, existing, NewStatus(w, op), NewChapter(w, op), op.now)])
  }

  function ApplyUpsert(w: World, op: Op): World
    requires Accepted(w, op)
  {
    var w1 := WriteRecord(w, op);
    if op.slot !in w.records && op.slot.user !in w.mirror.inkEarned then w1
    else
      var s := Fire(w.chain, w.mirror, OpRewards(w, op));
      w1.(chain := s.chain, mirror := s.mirror)
  }

  function Apply(w: World, op: Op): World
  {
    match op
    case Upsert(_, _, _, _) => if Accepted(w, op) then ApplyUpsert(w, op) else w
    case Delete(slot) => if slot in w.records && slot.user in w.mirror.inkEarned
        then w.(records := w.records - {slot}) else w
    case SetLive(series, live) => w.(live := if live then w.live + {series} else w.live - {series})
    case SetLast(series, last) => w.(last := if last.Some? then w.last[series := last.value] else w.last - {series})
  }

  /** No rewards and no records yet; `users` have passports. */
  function Start(users: set<UserId>): World
  {
    World(Chain({}, [], {}, [], 0), Mirror(map[], map[], map u | u in users :: 0), map[], {}, map[])
  }

  function Run(users: set<UserId>, ops: seq<Op>): World
  {
    if ops == [] then Start(users) else Apply(Run(users, ops[..|ops| - 1]), ops[|ops| - 1])
  }

  // What an accepted update stores, in the words of the rule.

  /** The reader's furthest chapter and the series' last live chapter. */
  predicate AtEnd(chapter: nat, last: Option<real>) { last.Some? && last.value <= chapter as real }

  /**
    COMPLETED is stored exactly if the record was COMPLETED and is asked to be
    COMPLETED or READING, or is asked to be COMPLETED at the end of the series;
    an unearned COMPLETED becomes READING; anything else is stored as asked.
   */
  predicate StatusRule(before: Option<Record>, requested: Status, chapter: nat, last: Option<real>, stored: Status)
  {
    var completed := before.Some? && before.value.status == Status.Completed;
    match requested
    case Completed => stored == if completed || AtEnd(chapter, last) then Status.Completed else Status.Reading
    case Reading => stored == if completed then Status.Completed else Status.Reading
    case OnHold => stored == Status.OnHold
    case Dropped => stored == Status.Dropped
    case PlanToRead => stored == Status.PlanToRead
  }

  /** The chapter never drops, and the completion date is set when the record becomes COMPLETED, and then kept. */
  predicate RecordRule(before: Option<Record>, requested: Status, chapter: nat, last: Option<real>, now: int,
      after: Record)
  {
    var completed := before.Some? && before.value.status == Status.Completed;
    && chapter <= after.currentChapter && (before.Some? ==> before.value.currentChapter <= after.currentChapter)
    && (after.currentChapter == chapter || (before.Some? && after.currentChapter == before.value.currentChapter))
    && StatusRule(before, requested, after.currentChapter, last, after.status)
    && after.completedAt == (if after.status == Status.Completed && !completed then Some(now)
                             else if before.Some? then before.value.completedAt else None)
  }

  lemma {:induction false} UpsertStores(w: World, op: Op)
    requires Accepted(w, op)
    ensures var w' := Apply(w, op);
            && SameExcept(w.records, w'.records, op.slot)
            && RecordRule(Lookup(w.records, op.slot), op.status, op.chapter, Lookup(w.last, op.slot.series), op.now,
                          w'.records[op.slot])
  {
    var w1 := WriteRecord(w, op);
    assert w1.records.Keys == w.records.Keys + {op.slot};
    RuleFollowed(Lookup(w.records, op.slot), op.status, op.chapter, Lookup(w.last, op.slot.series), op.now);
  }

  /** The decisions of the service follow the rule, whatever row they are based on. */
  lemma {:induction false} RuleFollowed(before: Option<Record>, requested: Status, chapter: nat, last: Option<real>,
      now: int)
    ensures var newChapter := Max(PrevChapter(before), chapter);
            var status := DecideStatus(requested, before, newChapter, last);
            RecordRule(before, requested, chapter, last, now,
                       ReadingRules.UpsertRecord(before, before, status, newChapter, now))
  {
    match requested
    case Completed =>
    case Reading =>
    case OnHold =>
    case Dropped =>
    case PlanToRead =>
  }

  // ----- The service object -----

  class ReadingService {
    var chain: Chain
    var mirror: Mirror
    var records: map<Slot, Record>
    var live: set<SeriesId>
    var last: map<SeriesId, real>

    function Value(): World
      reads this
    {
      World(chain, mirror, records, live, last)
    }

    constructor (users: set<UserId>)
      ensures Value() == Start(users)
    {
      chain, mirror := Chain({}, [], {}, [], 0), Mirror(map[], map[], map u | u in users :: 0);
      records, live, last := map[], {}, map[];
    }

    /** Returns the cached result, or mints on chain and then mirrors. */
    method MintEarning(e: Earning) returns (r: MintResult)
      modifies this`chain, this`mirror
      ensures Stores(chain, mirror, r) == Mint(old(chain), old(mirror), e)
      ensures MintOutcome(old(chain), old(mirror), e, chain, mirror, r)
    {
      MintExactly(chain, mirror, e);
      if HasRow(mirror, e.key) {
        var row := mirror.ledger[e.key];
        var level := CalculateLevel(EarnedOf(mirror, e.user));
        return Cached(Receipt(row.digest.value, row.amount, BalanceOf(mirror, e.user), level));
      }
      var digest := chain.nextId;
      var sent := Earn(chain, e);
      if sent.None? {
        return AlreadyMinted;
      }
      chain := sent.value;
      var credited := Credit(mirror, e, digest);
      if credited.None? {
        return RolledBack;
      }
      mirror := credited.value;
      var level := CalculateLevel(EarnedOf(mirror, e.user));
      r := Minted(Receipt(digest, Amount(e.trigger), BalanceOf(mirror, e.user), level));
    }

    /** The reward loop of `checkAndFireMilestones`. */
    method FireRewards(rewards: seq<Earning>)
      modifies this`chain, this`mirror
      ensures chain == Fire(old(chain), old(mirror), rewards).chain
      ensures mirror == Fire(old(chain), old(mirror), rewards).mirror
    {
      ghost var goal := Fire(chain, mirror, rewards);
      for i := 0 to |rewards|
        invariant Fire(chain, mirror, rewards[i..]) == goal
      {
        assert rewards[i..][0] == rewards[i] && rewards[i..][1..] == rewards[i + 1..];
        var r := MintEarning(rewards[i]);
        if r == RolledBack {
          return;
        }
      }
    }

    method UpsertRecord(slot: Slot, status: Status, chapter: int, now: int) returns (r: Result<Record, Error>)
      modifies this
      ensures Value() == Apply(old(Value()), Upsert(slot, status, chapter, now))
      ensures r.Ok? ==> slot in records && r.value == records[slot]
      ensures r == Err(SeriesNotFound) <==> slot.series !in old(live)
      ensures r == Err(NegativeChapter) <==> slot.series in old(live) && chapter < 0
      ensures r == Err(PassportMissing) <==>
                slot.series in old(live) && chapter >= 0 && slot !in old(records) && slot.user !in old(mirror).inkEarned
      ensures slot.series !in old(live) || chapter < 0 ==> Value() == old(Value())
      ensures r.Err? ==> chain == old(chain) && mirror == old(mirror)
      ensures live == old(live) && last == old(last)
      ensures slot.series in old(live) && chapter >= 0 ==>
                && SameExcept(old(records), records, slot)
                && RecordRule(Lookup(old(records), slot), status, chapter, Lookup(old(last), slot.series), now,
                              records[slot])
    {
      if slot.series in live && chapter >= 0 {
        UpsertStores(Value(), Upsert(slot, status, chapter, now));
      }
      if slot.series !in live {
        return Err(SeriesNotFound);
      }
      if chapter < 0 {
        return Err(NegativeChapter);
      }
      var existing := Lookup(records, slot);
      var wasCompleted := WasCompleted(existing);
      var newChapter := Max(PrevChapter(existing), chapter);
      var newStatus := status;
      if newStatus == Completed && !wasCompleted {
        if !ReachedEnd(newChapter, Lookup(last, slot.series)) {
          newStatus := Reading;
        }
      } else if wasCompleted && newStatus == Reading {
        newStatus := Completed;
      }
      var record := ReadingRules.UpsertRecord(existing, existing, newStatus, newChapter, now);
      records := records[slot := record];
      if existing.None? && slot.user !in mirror.inkEarned {
        return Err(PassportMissing);
      }
      var rewards := BuildRewards(slot.user, slot.series, PrevChapter(existing), newChapter, existing.None?,
                                  wasCompleted, newStatus == Completed);
      FireRewards(rewards);
      r := Ok(record);
    }

    method DeleteRecord(slot: Slot) returns (r: Result<(), Error>)
      modifies this`records
      ensures Value() == Apply(old(Value()), Delete(slot))
      ensures r.Ok? <==> slot in old(records) && slot.user in old(mirror).inkEarned
      ensures r == Err(RecordNotFound) <==> slot !in old(records)
      ensures records == if r.Ok? then old(records) - {slot} else old(records)
    {
      if slot !in records {
        return Err(RecordNotFound);
      }
      if slot.user !in mirror.inkEarned {
        return Err(PassportMissing);
      }
      records := records - {slot};
      r := Ok(());
    }
  }

  // ----- Reading rewards are path independent -----

  /** What a history of requests amounts to for one user and series. */
  datatype Summary = Summary(visited: bool, largest: nat, completed: bool)

  function SummaryOf(users: set<UserId>, ops: seq<Op>, slot: Slot): Summary
  {
    if ops == [] then Summary(false, 0, false)
    else
      var before := SummaryOf(users, ops[..|ops| - 1], slot);
      var w, op := Run(users, ops[..|ops| - 1]), ops[|ops| - 1];
      if Accepted(w, op) && op.slot == slot then
        Summary(true, Max(before.largest, op.chapter), before.completed || Earns(w, op))
      else before
  }

  predicate ReadingKeyOf(k: InkKey, slot: Slot) { !k.Approval? && k.user == slot.user && k.series == slot.series }

  function KeysOf(es: seq<Earning>): set<InkKey> { set e | e in es :: e.key }

  /** Users with a passport: what is on chain is in the ledger. */
  ghost predicate InSync(chain: Chain, mirror: Mirror, users: set<UserId>)
  {
    && users <= mirror.inkEarned.Keys
    && (forall k: InkKey :: k.user in users ==> (k in chain.registry <==> HasRow(mirror, k)))
  }

  /** Without failures a list of rewards adds exactly its keys. */
  lemma {:induction false} FireAddsKeys(chain: Chain, mirror: Mirror, es: seq<Earning>, users: set<UserId>, u: UserId)
    requires InSync(chain, mirror, users) && u in users
    requires forall e :: e in es ==> Matches(e) && e.user == u
    ensures var s := Fire(chain, mirror, es);
            InSync(s.chain, s.mirror, users) && s.chain.registry == chain.registry + KeysOf(es)
    decreases |es|
  {
    if es != [] {
      var e := es[0];
      assert e in es;
      var s := Mint(chain, mirror, e);
      assert InSync(s.chain, s.mirror, users);
      FireAddsKeys(s.chain, s.mirror, es[1..], users, u);
      assert es == [e] + es[1..];
      assert KeysOf(es) == {e.key} + KeysOf(es[1..]);
    }
  }

  /** For a user without a passport, rewards can only touch that user's own keys. */
  lemma {:induction false} FireForeign(chain: Chain, mirror: Mirror, es: seq<Earning>, users: set<UserId>, u: UserId)
    requires InSync(chain, mirror, users) && u !in users
    requires forall e :: e in es ==> Matches(e) && e.user == u
    ensures var s := Fire(chain, mirror, es);
            InSync(s.chain, s.mirror, users) && forall k: InkKey :: k.user in users ==> (k in s.chain.registry
                <==> k in chain.registry)
    decreases |es|
  {
    if es != [] {
      var e := es[0];
      assert e in es;
      var s := Mint(chain, mirror, e);
      assert InSync(s.chain, s.mirror, users);
      FireForeign(s.chain, s.mirror, es[1..], users, u);
    }
  }

  ghost predicate SlotOk(w: World, slot: Slot, sum: Summary)
  {
    && (!sum.visited ==> sum.largest == 0)
    && (slot in w.records ==> sum.visited && w.records[slot].currentChapter <= sum.largest)
    && (forall k :: ReadingKeyOf(k, slot) ==>
          (k in w.chain.registry <==> Justifies(k, sum.visited, sum.largest, sum.completed)))
  }

  /** The rewards of an update are what moves the justified keys from the old summary to the new one. */
  lemma {:induction false} RewardsCompleteSummary(slot: Slot, existing: Option<Record>, sum: Summary,
      chapter: nat, earns: bool, nowCompleted: bool, k: InkKey)
    requires !sum.visited ==> sum.largest == 0
    requires existing.Some? ==> sum.visited && existing.value.currentChapter <= sum.largest
    requires ReadingKeyOf(k, slot) && (earns <==> nowCompleted && !WasCompleted(existing))
    ensures var es := Rewards(slot.user, slot.series, PrevChapter(existing), Max(PrevChapter(existing), chapter),
                              existing.None?, WasCompleted(existing), nowCompleted);
            (k in KeysOf(es) || Justifies(k, sum.visited, sum.largest, sum.completed))
            <==> Justifies(k, true, Max(sum.largest, chapter), sum.completed || earns)
  {
    var prev := PrevChapter(existing);
    var next := Max(prev, chapter);
    var lo, hi := prev / CHAPTER_MILESTONE_INTERVAL, next / CHAPTER_MILESTONE_INTERVAL;
    var marks := Milestones(slot.user, slot.series, lo, hi);
    var es := Rewards(slot.user, slot.series, prev, next, existing.None?, WasCompleted(existing), nowCompleted);
    MilestonesExact(slot.user, slot.series, lo, hi);
    assert forall e :: e in es <==>
      (e in marks || (existing.None? && e == Earning(slot.user, ChapterRead, FirstChapter(slot.user, slot.series)))
       || (earns && e == Earning(slot.user, SeriesComplete, Completion(slot.user, slot.series))));
    match k
    case FirstChapter(_, _) =>
      assert existing.None? ==> Earning(slot.user, ChapterRead, k) in es;
    case Completion(_, _) =>
      assert earns ==> Earning(slot.user, SeriesComplete, k) in es;
    case Milestone(_, _, mark) =>
      MilestoneInRange(slot, lo, hi, mark);
      var e := Earning(slot.user, ChapterRead, k);
      assert e in es <==> e in marks;
      assert k in KeysOf(es) <==> e in marks;
      assert lo <= sum.largest / CHAPTER_MILESTONE_INTERVAL;
  }

  lemma {:induction false} MilestoneInRange(slot: Slot, lo: nat, hi: nat, mark: nat)
    ensures Earning(slot.user, ChapterRead, Milestone(slot.user, slot.series, mark)) in Milestones(slot.user,
        slot.series, lo, hi)
            <==> mark % CHAPTER_MILESTONE_INTERVAL == 0 && lo < mark / CHAPTER_MILESTONE_INTERVAL <= hi
  {
    var e := Earning(slot.user, ChapterRead, Milestone(slot.user, slot.series, mark));
    MilestonesExact(slot.user, slot.series, lo, hi);
    if e in Milestones(slot.user, slot.series, lo, hi) {
      var k: nat :| lo < k <= hi && e == Earning(slot.user, ChapterRead, Milestone(slot.user, slot.series,
          k * CHAPTER_MILESTONE_INTERVAL));
      assert mark == k * 25;
    }
    if mark % CHAPTER_MILESTONE_INTERVAL == 0 {
      assert mark == mark / CHAPTER_MILESTONE_INTERVAL * CHAPTER_MILESTONE_INTERVAL;
    }
  }

  lemma {:induction false} OpRewardsMatch(w: World, op: Op)
    requires Accepted(w, op)
    ensures forall e :: e in OpRewards(w, op) ==> Matches(e) && e.user == op.slot.user && ReadingKeyOf(e.key, op.slot)
  {
    var existing := Lookup(w.records, op.slot);
    RewardsJustified(op.slot.user, op.slot.series, PrevChapter(existing), NewChapter(w, op), existing.None?,
                     WasCompleted(existing), NewStatus(w, op) == Completed, NewChapter(w, op), true);
  }

  lemma {:induction false} UpsertKeepsSlot(w: World, op: Op, users: set<UserId>, slot: Slot, sum: Summary)
    requires Accepted(w, op) && InSync(w.chain, w.mirror, users) && slot.user in users && SlotOk(w, slot, sum)
    ensures var w' := ApplyUpsert(w, op);
            && InSync(w'.chain, w'.mirror, users)
            && SlotOk(w', slot, if op.slot == slot then Summary(true, Max(sum.largest, op.chapter), sum.completed
                || Earns(w, op)) else sum)
  {
    var w' := ApplyUpsert(w, op);
    var es := OpRewards(w, op);
    var existing := Lookup(w.records, op.slot);
    OpRewardsMatch(w, op);
    if op.slot.user in users {
      FireAddsKeys(w.chain, w.mirror, es, users, op.slot.user);
      if op.slot == slot {
        var sum' := Summary(true, Max(sum.largest, op.chapter), sum.completed || Earns(w, op));
        forall k | ReadingKeyOf(k, slot)
          ensures k in w'.chain.registry <==> Justifies(k, sum'.visited, sum'.largest, sum'.completed)
        {
          RewardsCompleteSummary(slot, existing, sum, op.chapter, Earns(w, op), NewStatus(w, op) == Completed, k);
        }
      } else {
        forall k | ReadingKeyOf(k, slot) ensures k in w'.chain.registry <==> k in w.chain.registry {
        }
      }
    } else {
      FireForeign(w.chain, w.mirror, es, users, op.slot.user);
    }
  }

  lemma {:induction false} RunKeepsSlot(users: set<UserId>, ops: seq<Op>, slot: Slot)
    requires slot.user in users
    ensures var w := Run(users, ops);
            InSync(w.chain, w.mirror, users) && SlotOk(w, slot, SummaryOf(users, ops, slot))
    decreases |ops|
  {
    if ops != [] {
      var n := |ops| - 1;
      RunKeepsSlot(users, ops[..n], slot);
      var w := Run(users, ops[..n]);
      if Accepted(w, ops[n]) {
        UpsertKeepsSlot(w, ops[n], users, slot, SummaryOf(users, ops[..n], slot));
      }
    }
  }

  /**
    The keys minted for a user and series are exactly those justified by
    whether it was ever visited, the largest chapter submitted, and whether a
    completion was earned, whatever the order of updates, deletes and re-adds.
   */
  lemma {:induction false} MintedKeysExact(users: set<UserId>, ops: seq<Op>, slot: Slot, k: InkKey)
    requires slot.user in users && ReadingKeyOf(k, slot)
    ensures var sum := SummaryOf(users, ops, slot);
            && (k in Run(users, ops).chain.registry <==> Justifies(k, sum.visited, sum.largest, sum.completed))
            && (k in Run(users, ops).chain.registry <==> HasRow(Run(users, ops).mirror, k))
  {
    RunKeepsSlot(users, ops, slot);
  }

  lemma {:induction false} PathIndependent(users: set<UserId>, ops: seq<Op>, others: seq<Op>, slot: Slot, k: InkKey)
    requires slot.user in users && ReadingKeyOf(k, slot)
    requires SummaryOf(users, ops, slot) == SummaryOf(users, others, slot)
    ensures k in Run(users, ops).chain.registry <==> k in Run(users, others).chain.registry
  {
    MintedKeysExact(users, ops, slot, k);
    MintedKeysExact(users, others, slot, k);
  }

  // ----- Completion is earned -----

  /**
    After `i` requests the record was COMPLETED at or past the last live chapter; it has been kept,
    never moved back, and dated since.
   */
  ghost predicate EarnedAt(users: set<UserId>, ops: seq<Op>, slot: Slot, i: nat)
    requires i <= |ops|
  {
    var w0 := Run(users, ops[..i]);
    && slot in w0.records && w0.records[slot].status == Completed
    && ReachedEnd(w0.records[slot].currentChapter, Lookup(w0.last, slot.series))
    && forall j :: i <= j <= |ops| ==>
         var w := Run(users, ops[..j]);
         && slot in w.records && w.records[slot].currentChapter >= w0.records[slot].currentChapter
         && w.records[slot].completedAt.Some?
  }

  lemma {:induction false} NewlyCompleted(w: World, op: Op, slot: Slot)
    requires slot in w.records ==> w.records[slot].status != Completed
    requires slot in Apply(w, op).records && Apply(w, op).records[slot].status == Completed
    ensures var w' := Apply(w, op);
            ReachedEnd(w'.records[slot].currentChapter, Lookup(w'.last, slot.series))
                && w'.records[slot].completedAt.Some?
  {
  }

  /** A COMPLETED record had, at some moment, reached the end of its series. */
  lemma {:induction false} CompletionIsEarned(users: set<UserId>, ops: seq<Op>, slot: Slot) returns (i: nat)
    requires slot in Run(users, ops).records && Run(users, ops).records[slot].status == Completed
    ensures i <= |ops| && EarnedAt(users, ops, slot, i)
    decreases |ops|
  {
    var n := |ops| - 1;
    var w, op := Run(users, ops[..n]), ops[n];
    assert ops[..|ops|] == ops;
    if slot in w.records && w.records[slot].status == Completed {
      i := CompletionIsEarned(users, ops[..n], slot);
      assert ops[..n][..i] == ops[..i];
      assert ops[..n][..n] == ops[..n];
      forall j | i <= j <= |ops|
        ensures var v := Run(users, ops[..j]);
                && slot in v.records && v.records[slot].currentChapter >= Run(users,
                    ops[..i]).records[slot].currentChapter
                && v.records[slot].completedAt.Some?
      {
        if j <= n {
          assert ops[..n][..j] == ops[..j];
        }
      }
    } else {
      i := |ops|;
      NewlyCompleted(w, op, slot);
    }
  }

  /** A completion date is cleared by no status change, only by deleting the record. */
  lemma {:induction false} CompletedAtSurvives(users: set<UserId>, ops: seq<Op>, slot: Slot, i: nat)
    requires i <= |ops|
    requires slot in Run(users, ops[..i]).records && Run(users, ops[..i]).records[slot].completedAt.Some?
    requires forall j :: i <= j < |ops| ==> ops[j] != Delete(slot)
    ensures slot in Run(users, ops).records && Run(users, ops).records[slot].completedAt.Some?
    decreases |ops|
  {
    if i < |ops| {
      var n := |ops| - 1;
      assert ops[..n][..i] == ops[..i];
      CompletedAtSurvives(users, ops[..n], slot, i);
    } else {
      assert ops[..i] == ops;
    }
  }
}
