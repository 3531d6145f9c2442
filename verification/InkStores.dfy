/**
  The two stores of the reward protocol.  `Chain` is the append-only side: a
  registry that accepts each key once and then aborts.  `Mirror` is the
  Postgres side: ledger, balances and passport totals.
 */
module InkStores {
  import opened Wrappers
  import opened Sums
  import opened Keys

  type Digest = nat

  // ----- Chain -----

  /** One `InkEarned` event. */
  datatype Earning = Earning(user: UserId, trigger: Trigger, key: InkKey)

  /** Composite key of a badge that is not tied to a series. */
  datatype BadgeKey = BadgeKey(recipient: UserId, category: nat, badgeType: nat)

  const READING_ACHIEVEMENT: nat := 0
  const CONTRIBUTOR: nat := 4
  const FIRST_CHAPTER: nat := 0
  const SERIES_COMPLETIONIST: nat := 2
  const SUBMISSION_APPROVED: nat := 0

  datatype Chain = Chain(
    registry: set<InkKey>,
    earnings: seq<Earning>,
    badges: set<BadgeKey>,
    issued: seq<BadgeKey>,
    nextId: Digest)

  /** `ink_earning::earn`; None is an abort, which leaves the chain as it was. */
  function Earn(c: Chain, e: Earning): Option<Chain>
  {
    if e.key in c.registry then None
    else Some(c.(registry := c.registry + {e.key}, earnings := c.earnings + [e], nextId := c.nextId + 1))
  }

  /** `badges::mint`. */
  function MintBadge(c: Chain, b: BadgeKey): Option<Chain>
  {
    if b in c.badges then None
    else Some(c.(badges := c.badges + {b}, issued := c.issued + [b], nextId := c.nextId + 1))
  }

  /** One programmable transaction: earn, then mint the badge if asked to. All or nothing. */
  function EarnAndBadge(c: Chain, e: Earning, badge: Option<BadgeKey>): Option<Chain>
  {
    match Earn(c, e)
    case None => None
    case Some(c1) => if badge.Some? then MintBadge(c1, badge.value) else Some(c1)
  }

  function EventShare(u: UserId): Earning -> nat
  {
    (e: Earning) => if e.user == u then Amount(e.trigger) else 0
  }

  function KeyShare(u: UserId): InkKey -> nat
  {
    (k: InkKey) => if k.user == u then Amount(k.Trigger()) else 0
  }

  /** INK the chain has minted for a user. */
  function MintedOnChain(c: Chain, u: UserId): nat { SumSeq(c.earnings, EventShare(u)) }

  ghost predicate ChainOk(c: Chain)
  {
    && (forall i :: 0 <= i < |c.earnings| ==> c.earnings[i].key in c.registry)
    && (forall i, j :: 0 <= i < j < |c.earnings| ==> c.earnings[i].key != c.earnings[j].key)
    && (forall i :: 0 <= i < |c.issued| ==> c.issued[i] in c.badges)
    && (forall i, j :: 0 <= i < j < |c.issued| ==> c.issued[i] != c.issued[j])
    && (forall u :: MintedOnChain(c, u) == SumOver(c.registry, KeyShare(u)))
  }

  /** The earning a key stands for. */
  predicate Matches(e: Earning)
  {
    e.user == e.key.user && e.trigger == e.key.Trigger()
  }

  lemma {:induction false} EarnKeepsChainOk(c: Chain, e: Earning)
    requires ChainOk(c) && Matches(e) && Earn(c, e).Some?
    ensures ChainOk(Earn(c, e).value)
  {
    var c' := Earn(c, e).value;
    forall u ensures MintedOnChain(c', u) == SumOver(c'.registry, KeyShare(u)) {
      SumAdd(c.registry, KeyShare(u), e.key);
      assert MintedOnChain(c, u) == SumOver(c.registry, KeyShare(u));
    }
  }

  lemma {:induction false} MintBadgeKeepsChainOk(c: Chain, b: BadgeKey)
    requires ChainOk(c) && MintBadge(c, b).Some?
    ensures ChainOk(MintBadge(c, b).value)
  {
    var c' := MintBadge(c, b).value;
    forall u ensures MintedOnChain(c', u) == SumOver(c'.registry, KeyShare(u)) {
      assert MintedOnChain(c, u) == SumOver(c.registry, KeyShare(u));
    }
  }

  // ----- Mirror -----

  datatype LedgerRow = LedgerRow(user: UserId, trigger: Trigger, amount: nat, digest: Option<Digest>)

  /** `inkEarned` is the passport's totalInkEarned; its domain is the users that have a passport. */
  datatype Mirror = Mirror(
    ledger: map<InkKey, LedgerRow>,
    balances: map<UserId, nat>,
    inkEarned: map<UserId, nat>)

  function BalanceOf(m: Mirror, u: UserId): nat { if u in m.balances then m.balances[u] else 0 }
  function EarnedOf(m: Mirror, u: UserId): nat { if u in m.inkEarned then m.inkEarned[u] else 0 }

  /** The fast path of `mintEarning`: a ledger row with a digest. */
  predicate HasRow(m: Mirror, k: InkKey) { k in m.ledger && m.ledger[k].digest.Some? }

  /**
    The mirror transaction: upsert the ledger row, increment the balance,
    increment the passport total.  A missing passport rolls all of it back.
   */
  function Credit(m: Mirror, e: Earning, digest: Digest): Option<Mirror>
  {
    if e.user !in m.inkEarned then None
    else
      var row := if e.key in m.ledger then m.ledger[e.key].(digest := Some(digest))
                 else LedgerRow(e.user, e.trigger, Amount(e.trigger), Some(digest));
      Some(Mirror(
             m.ledger[e.key := row],
             m.balances[e.user := BalanceOf(m, e.user) + Amount(e.trigger)],
             m.inkEarned[e.user := m.inkEarned[e.user] + Amount(e.trigger)]))
  }

  function RowShare(ledger: map<InkKey, LedgerRow>, u: UserId): InkKey -> nat
  {
    (k: InkKey) => if k in ledger && ledger[k].user == u then ledger[k].amount else 0
  }

  /** Sum of a user's ledger amounts. */
  ghost function LedgerSum(m: Mirror, u: UserId): nat { SumOver(m.ledger.Keys, RowShare(m.ledger, u)) }

  function RowsOf(m: Mirror, u: UserId, t: Trigger): set<InkKey>
  {
    set k | k in m.ledger && m.ledger[k].user == u && m.ledger[k].trigger == t
  }

  ghost predicate RowsOk(m: Mirror)
  {
    forall k :: k in m.ledger ==>
      && m.ledger[k].user == k.user && m.ledger[k].trigger == k.Trigger()
      && m.ledger[k].amount == Amount(k.Trigger()) && m.ledger[k].digest.Some?
  }

  /** balance = totalInkEarned = sum of ledger amounts, for every user. */
  ghost predicate Conserved(m: Mirror)
  {
    forall u :: BalanceOf(m, u) == LedgerSum(m, u) && EarnedOf(m, u) == LedgerSum(m, u)
  }

  ghost predicate MirrorOk(m: Mirror) { RowsOk(m) && Conserved(m) }

  lemma {:induction false} CreditedSum(m: Mirror, e: Earning, digest: Digest, u: UserId)
    requires Credit(m, e, digest).Some?
    ensures e.key !in m.ledger ==>
              LedgerSum(Credit(m, e, digest).value, u) == LedgerSum(m, u) + (if u == e.user
                  then Amount(e.trigger) else 0)
    ensures e.key in m.ledger ==> LedgerSum(Credit(m, e, digest).value, u) == LedgerSum(m, u)
  {
    var m' := Credit(m, e, digest).value;
    SumSame(m.ledger.Keys, RowShare(m.ledger, u), RowShare(m'.ledger, u));
    assert m'.ledger.Keys == m.ledger.Keys + {e.key};
    if e.key !in m.ledger {
      SumAdd(m.ledger.Keys, RowShare(m'.ledger, u), e.key);
    } else {
      assert m'.ledger.Keys == m.ledger.Keys;
    }
  }

  lemma {:induction false} CreditKeepsMirrorOk(m: Mirror, e: Earning, digest: Digest)
    requires MirrorOk(m) && Matches(e) && e.key !in m.ledger && Credit(m, e, digest).Some?
    ensures var m' := Credit(m, e, digest).value;
            MirrorOk(m') && forall u :: BalanceOf(m, u) <= BalanceOf(m', u)
  {
    var m' := Credit(m, e, digest).value;
    forall u
      ensures BalanceOf(m', u) == LedgerSum(m', u) && EarnedOf(m', u) == LedgerSum(m', u)
      ensures BalanceOf(m, u) <= BalanceOf(m', u)
    {
      CreditedSum(m, e, digest, u);
      assert BalanceOf(m, u) == LedgerSum(m, u);
    }
  }

  /**
    Why the `update` branch of the ledger upsert must stay unreachable: taking
    it credits the balance again without adding to the ledger.
   */
  lemma {:induction false} UpdateBranchOvercredits(m: Mirror, e: Earning, digest: Digest)
    requires Conserved(m) && e.key in m.ledger && Credit(m, e, digest).Some?
    ensures var m' := Credit(m, e, digest).value;
            BalanceOf(m', e.user) == LedgerSum(m', e.user) + Amount(e.trigger) && !Conserved(m')
  {
    var m' := Credit(m, e, digest).value;
    CreditedSum(m, e, digest, e.user);
    assert BalanceOf(m, e.user) == LedgerSum(m, e.user);
    assert BalanceOf(m', e.user) != LedgerSum(m', e.user);
  }

  lemma {:induction false} NewPassportKeepsMirrorOk(m: Mirror, u: UserId)
    requires MirrorOk(m) && u !in m.inkEarned
    ensures MirrorOk(m.(inkEarned := m.inkEarned[u := 0]))
  {
    var m' := m.(inkEarned := m.inkEarned[u := 0]);
    forall v ensures BalanceOf(m', v) == LedgerSum(m', v) && EarnedOf(m', v) == LedgerSum(m', v) {
      assert BalanceOf(m, v) == LedgerSum(m, v) && EarnedOf(m, v) == LedgerSum(m, v);
      assert m'.ledger == m.ledger;
    }
  }

  /** A conserved balance counts the user's reward rows: 10 per chapter row, 100 per completion, 50 per approval. */
  lemma {:induction false} BalanceCountsRows(m: Mirror, u: UserId)
    requires MirrorOk(m)
    ensures BalanceOf(m, u) == EarnedOf(m, u) == LedgerSum(m, u)
    ensures BalanceOf(m, u) == 10 * |RowsOf(m, u, ChapterRead)| + 100 * |RowsOf(m, u, SeriesComplete)|
                               + 50 * |RowsOf(m, u, SubmissionApproved)|
  {
    assert BalanceOf(m, u) == LedgerSum(m, u) && EarnedOf(m, u) == LedgerSum(m, u);
    RowsPartition(m, u);
  }

  lemma {:induction false} RowsPartition(m: Mirror, u: UserId)
    requires RowsOk(m)
    ensures LedgerSum(m, u) == 10 * |RowsOf(m, u, ChapterRead)| + 100 * |RowsOf(m, u, SeriesComplete)|
                               + 50 * |RowsOf(m, u, SubmissionApproved)|
  {
    var f := RowShare(m.ledger, u);
    var a, b, c := RowsOf(m, u, ChapterRead), RowsOf(m, u, SeriesComplete), RowsOf(m, u, SubmissionApproved);
    calc {
      LedgerSum(m, u);
      { ForeignRowsAddNothing(m, u); }
      SumOver(OwnRows(m, u), f);
      { ThreeTriggers(m, u); SumUnion(a + b, c, f); }
      SumOver(a + b, f) + SumOver(c, f);
      { SumUnion(a, b, f); }
      SumOver(a, f) + SumOver(b, f) + SumOver(c, f);
      { SumOfRows(m, u, ChapterRead); SumOfRows(m, u, SeriesComplete); SumOfRows(m, u, SubmissionApproved); }
      10 * |a| + 100 * |b| + 50 * |c|;
    }
  }

  lemma {:induction false} OtherRowsWeighNothing(m: Mirror, u: UserId, others: set<InkKey>)
    requires others !! OwnRows(m, u)
    ensures SumOver(others, RowShare(m.ledger, u)) == 0
  {
    forall k | k in others ensures RowShare(m.ledger, u)(k) == 0 {
      assert k !in OwnRows(m, u);
    }
    SumConstant(others, RowShare(m.ledger, u), 0);
  }

  lemma {:induction false} ForeignRowsAddNothing(m: Mirror, u: UserId)
    ensures LedgerSum(m, u) == SumOver(OwnRows(m, u), RowShare(m.ledger, u))
  {
    var f := RowShare(m.ledger, u);
    var others := m.ledger.Keys - OwnRows(m, u);
    OtherRowsWeighNothing(m, u, others);
    SumUnion(OwnRows(m, u), others, f);
    assert OwnRows(m, u) + others == m.ledger.Keys;
  }

  function OwnRows(m: Mirror, u: UserId): set<InkKey>
  {
    set k | k in m.ledger && m.ledger[k].user == u
  }

  lemma {:induction false} ThreeTriggers(m: Mirror, u: UserId)
    ensures OwnRows(m, u) == RowsOf(m, u, ChapterRead) + RowsOf(m, u, SeriesComplete) + RowsOf(m, u, SubmissionApproved)
  {
    forall k | k in OwnRows(m, u)
      ensures k in RowsOf(m, u, ChapterRead) + RowsOf(m, u, SeriesComplete) + RowsOf(m, u, SubmissionApproved)
    {
      match m.ledger[k].trigger
      case ChapterRead =>
      case SeriesComplete =>
      case SubmissionApproved =>
    }
  }

  lemma {:induction false} SumOfRows(m: Mirror, u: UserId, t: Trigger)
    requires RowsOk(m)
    ensures SumOver(RowsOf(m, u, t), RowShare(m.ledger, u)) == Amount(t) * |RowsOf(m, u, t)|
  {
    SumConstant(RowsOf(m, u, t), RowShare(m.ledger, u), Amount(t));
  }

  /** Ledger rows that carry their key's user, trigger and amount add up like the keys do. */
  lemma {:induction false} LedgerSumByKeys(m: Mirror, u: UserId)
    requires RowsOk(m)
    ensures LedgerSum(m, u) == SumOver(m.ledger.Keys, KeyShare(u))
  {
    SumSame(m.ledger.Keys, RowShare(m.ledger, u), KeyShare(u));
  }

  // ----- Levels -----

  const LEVEL_THRESHOLDS: seq<nat> := [0, 500, 2000, 6000, 15000, 40000]

  function LevelOf(total: nat): nat
  {
    if total < 500 then 1
    else if total < 2000 then 2
    else if total < 6000 then 3
    else if total < 15000 then 4
    else if total < 40000 then 5
    else 6
  }

  /** Walks up the thresholds until one is above the total. */
  method CalculateLevel(totalInkEarned: nat) returns (level: nat)
    ensures level == LevelOf(totalInkEarned)
    ensures 1 <= level <= 6 && (level >= 2 <==> totalInkEarned >= 500) && (level >= 3 <==> totalInkEarned >= 2000)
    ensures level >= 4 <==> totalInkEarned >= 6000
    ensures level >= 5 <==> totalInkEarned >= 15000
    ensures level >= 6 <==> totalInkEarned >= 40000
  {
    level := 1;
    var i := 1;
    while i < |LEVEL_THRESHOLDS|
      invariant 1 <= i <= 6 && level == i && LEVEL_THRESHOLDS[level - 1] <= totalInkEarned
    {
      if totalInkEarned >= LEVEL_THRESHOLDS[i] {
        level := i + 1;
      } else {
        break;
      }
      i := i + 1;
    }
  }
}
