/**
  Idempotent USDC payments: tips and sends are built under a client-chosen key,
  then confirmed by executing a signed transaction.  Each request reads the
  user, the series, the balance and the chain's answer afresh; those are inputs.
 */
module Payments {
  import opened Wrappers

  const MIN_TIP_USDC := 10_000

  datatype Kind = Tip | Send

  datatype Status = Pending | Confirmed | Failed

  /** `target` is a series for a tip and an address for a send. */
  datatype Terms = Terms(sender: string, target: string, amount: int)

  datatype Payment = Payment(
    id: string, terms: Terms, receiver: string, key: string, status: Status, digest: Option<string>)

  /** Rows in creation order. */
  type Table = seq<Payment>

  datatype Error =
    | TooSmall | ParamsDiffer | AlreadyProcessed
    | SenderNotFound | SeriesNotFound | NoCreator | OwnSeries | ChainUnavailable | Insufficient | StorageFailed
    | NotFound | NotYours | NotPending | ExecutionFailed | DigestTaken

  datatype SeriesFacts = SeriesFacts(creator: Option<string>)

  /** What one build request reads, and the row id it would generate. */
  datatype Facts = Facts(senderKnown: bool, series: Option<SeriesFacts>, balance: Option<int>, built: bool,
      freshId: string)

  /**
    `ReplyLost` executed on chain, but the caller saw an error; `NotWritten`
    executed, but the final row update failed.
   */
  datatype Execution = Succeeded(digest: string) | Refused | ReplyLost(digest: string) | NotWritten(digest: string)

  function FindKey(t: Table, key: string): (i: Option<nat>)
    ensures i.Some? ==> i.value < |t| && t[i.value].key == key
    ensures i.None? ==> forall j :: 0 <= j < |t| ==> t[j].key != key
  {
    if t == [] then None
    else if t[|t| - 1].key == key then Some(|t| - 1)
    else FindKey(t[..|t| - 1], key)
  }

  function FindId(t: Table, id: string): (i: Option<nat>)
    ensures i.Some? ==> i.value < |t| && t[i.value].id == id
    ensures i.None? ==> forall j :: 0 <= j < |t| ==> t[j].id != id
  {
    if t == [] then None
    else if t[|t| - 1].id == id then Some(|t| - 1)
    else FindId(t[..|t| - 1], id)
  }

  // ----- Build -----

  /** The amount and key checks; the result is the row to reuse, if any. */
  function Precheck(t: Table, terms: Terms, key: string): Result<Option<string>, Error>
  {
    if terms.amount < MIN_TIP_USDC then Err(TooSmall)
    else
      var i := FindKey(t, key);
      if i.None? then Ok(None)
      else if t[i.value].terms != terms then Err(ParamsDiffer)
      else if t[i.value].status != Pending then Err(AlreadyProcessed)
      else Ok(Some(t[i.value].id))
  }

  function SeriesError(sender: string, series: Option<SeriesFacts>): Option<Error>
  {
    if series.None? then Some(SeriesNotFound)
    else if series.value.creator.None? then Some(NoCreator)
    else if series.value.creator.value == sender then Some(OwnSeries)
    else None
  }

  function EnvironmentError(kind: Kind, terms: Terms, facts: Facts): Option<Error>
  {
    if !facts.senderKnown then Some(SenderNotFound)
    else if kind.Tip? && SeriesError(terms.sender, facts.series).Some? then SeriesError(terms.sender, facts.series)
    else if facts.balance.None? then Some(ChainUnavailable)
    else if facts.balance.value < terms.amount then Some(Insufficient)
    else if !facts.built then Some(ChainUnavailable)
    else None
  }

  function Receiver(kind: Kind, terms: Terms, facts: Facts): string
    requires EnvironmentError(kind, terms, facts).None?
  {
    if kind.Tip? then facts.series.value.creator.value else terms.target
  }

  /** Insert, or on a key collision return the row that won. */
  function Create(t: Table, terms: Terms, receiver: string, key: string, freshId: string): (Table,
      Result<string, Error>)
  {
    var raced := FindKey(t, key);
    if raced.Some? then (t, Ok(t[raced.value].id))
    else if FindId(t, freshId).Some? then (t, Err(StorageFailed))
    else (t + [Payment(freshId, terms, receiver, key, Pending, None)], Ok(freshId))
  }

  function Build(t: Table, kind: Kind, terms: Terms, key: string, facts: Facts): (Table, Result<string, Error>)
  {
    var existing := Precheck(t, terms, key);
    if existing.Err? then (t, Err(existing.error))
    else
      var error := EnvironmentError(kind, terms, facts);
      if error.Some? then (t, Err(error.value))
      else if existing.value.Some? then (t, Ok(existing.value.value))
      else Create(t, terms, Receiver(kind, terms, facts), key, facts.freshId)
  }

  // ----- Confirm -----

  function CheckPending(t: Table, id: string, sender: string): Option<Error>
  {
    var i := FindId(t, id);
    if i.None? then Some(NotFound)
    else if t[i.value].terms.sender != sender then Some(NotYours)
    else if t[i.value].status != Pending then Some(NotPending)
    else None
  }

  predicate DigestElsewhere(t: Table, i: nat, digest: string)
  {
    exists j :: 0 <= j < |t| && j != i && t[j].digest == Some(digest)
  }

  /** The unguarded write after execution; a digest held by another row makes it fail. */
  function WriteOutcome(t: Table, id: string, e: Execution): (Table, Result<string, Error>)
  {
    var i := FindId(t, id);
    if i.None? || e.NotWritten? then (t, Err(StorageFailed))
    else if !e.Succeeded? then (t[i.value := t[i.value].(status := Failed)], Err(ExecutionFailed))
    else if DigestElsewhere(t, i.value, e.digest) then (t, Err(DigestTaken))
    else (t[i.value := t[i.value].(status := Confirmed, digest := Some(e.digest))], Ok(e.digest))
  }

  function Confirm(t: Table, id: string, sender: string, e: Execution): (Table, Result<string, Error>)
  {
    var error := CheckPending(t, id, sender);
    if error.Some? then (t, Err(error.value)) else WriteOutcome(t, id, e)
  }

  // ----- Runs -----

  /** `executed` holds the digests of the transactions that succeeded on chain. */
  datatype State = State(tips: Table, sends: Table, executed: set<string>)
  {
    function Of(kind: Kind): Table { if kind.Tip? then tips else sends }

    function With(kind: Kind, t: Table): State
    {
      if kind.Tip? then this.(tips := t) else this.(sends := t)
    }
  }

  const EMPTY := State([], [], {})

  datatype Op =
    | BuildOp(kind: Kind, terms: Terms, key: string, facts: Facts)
    | ConfirmOp(kind: Kind, id: string, sender: string, execution: Execution)

  function Digests(t: Table, id: string, sender: string, e: Execution): set<string>
  {
    if CheckPending(t, id, sender).Some? || e.Refused? then {} else {e.digest}
  }

  function Apply(s: State, op: Op): (State, Result<string, Error>)
  {
    var t := s.Of(op.kind);
    if op.BuildOp? then
      var (t', r) := Build(t, op.kind, op.terms, op.key, op.facts);
      (s.With(op.kind, t'), r)
    else
      var (t', r) := Confirm(t, op.id, op.sender, op.execution);
      (s.With(op.kind, t').(executed := s.executed + Digests(t, op.id, op.sender, op.execution)), r)
  }

  function Run(ops: seq<Op>): State
  {
    if ops == [] then EMPTY else Apply(Run(ops[..|ops| - 1]), ops[|ops| - 1]).0
  }

  // ----- What a request promises -----

  /** The checks of a build, apart from its key. */
  ghost predicate MayBuild(kind: Kind, terms: Terms, facts: Facts)
  {
    && terms.amount >= 10_000 && facts.senderKnown
    && (kind.Tip? ==>
          && facts.series.Some? && facts.series.value.creator.Some?
          && facts.series.value.creator.value != terms.sender)
    && facts.balance.Some? && facts.balance.value >= terms.amount && facts.built
  }

  /** The creator for a tip, the given address for a send. */
  ghost predicate PaidTo(kind: Kind, terms: Terms, facts: Facts, receiver: string)
  {
    if kind.Tip? then facts.series.Some? && facts.series.value.creator == Some(receiver)
    else receiver == terms.target
  }

  /** What error `e` of a build says is wrong; `used` is the row that holds the key. */
  ghost predicate Fault(used: Option<Payment>, kind: Kind, terms: Terms, facts: Facts, e: Error)
  {
    match e
    case TooSmall => terms.amount < 10_000
    case ParamsDiffer => used.Some? && used.value.terms != terms
    case AlreadyProcessed => used.Some? && used.value.status != Pending
    case SenderNotFound => !facts.senderKnown
    case SeriesNotFound => kind.Tip? && facts.series.None?
    case NoCreator => kind.Tip? && facts.series.Some? && facts.series.value.creator.None?
    case OwnSeries => kind.Tip? && facts.series.Some? && facts.series.value.creator == Some(terms.sender)
    case Insufficient => facts.balance.Some? && facts.balance.value < terms.amount
    case ChainUnavailable => facts.balance.None? || !facts.built
    case _ => false
  }

  /** The order in which faults are looked for. */
  ghost function Rank(e: Error): nat
  {
    match e
    case TooSmall => 0
    case ParamsDiffer => 1
    case AlreadyProcessed => 2
    case SenderNotFound => 3
    case SeriesNotFound => 4
    case NoCreator => 5
    case OwnSeries => 6
    case Insufficient => 7
    case ChainUnavailable => 8
    case _ => 9
  }

  /** Of all faults of the request, `e` is looked for first. */
  ghost predicate FirstFault(used: Option<Payment>, kind: Kind, terms: Terms, facts: Facts, e: Error)
  {
    && Fault(used, kind, terms, facts, e)
    && forall d: Error :: Fault(used, kind, terms, facts, d) ==> Rank(e) <= Rank(d)
  }

  ghost predicate Unique(t: Table)
  {
    forall i, j :: 0 <= i < j < |t| ==>
      && t[i].key != t[j].key && t[i].id != t[j].id
      && (t[i].digest.Some? ==> t[i].digest != t[j].digest)
  }

  ghost predicate NoKey(t: Table, key: string)
  {
    forall j :: 0 <= j < |t| ==> t[j].key != key
  }

  ghost predicate NoId(t: Table, id: string)
  {
    forall j :: 0 <= j < |t| ==> t[j].id != id
  }

  /** An unused key: one PENDING row is added exactly if every check passes and the generated id is free. */
  ghost predicate NewKeyRule(t: Table, t': Table, kind: Kind, terms: Terms, key: string, facts: Facts,
      r: Result<string, Error>)
    requires NoKey(t, key)
  {
    && (r.Ok? <==> MayBuild(kind, terms, facts) && NoId(t, facts.freshId))
    && (r.Ok? ==>
          && |t'| == |t| + 1 && t'[..|t|] == t && r.value == t'[|t|].id == facts.freshId
          && t'[|t|].terms == terms && t'[|t|].key == key && t'[|t|].status == Pending && t'[|t|].digest == None
          && PaidTo(kind, terms, facts, t'[|t|].receiver))
    && (r.Err? ==> t' == t)
    && (r.Err? && MayBuild(kind, terms, facts) ==> r.error == StorageFailed)
    && (r.Err? && !MayBuild(kind, terms, facts) ==> FirstFault(None, kind, terms, facts, r.error))
  }

  /** A used key changes nothing, and is accepted exactly for its own PENDING row with equal parameters. */
  ghost predicate UsedKeyRule(t: Table, t': Table, i: nat, kind: Kind, terms: Terms, facts: Facts,
      r: Result<string, Error>)
    requires i < |t|
  {
    && t' == t
    && (r.Ok? <==> t[i].status == Pending && t[i].terms == terms && MayBuild(kind, terms, facts))
    && (r.Ok? ==> r.value == t[i].id)
    && (r.Err? ==> FirstFault(Some(t[i]), kind, terms, facts, r.error))
  }

  ghost predicate BuildRule(t: Table, t': Table, kind: Kind, terms: Terms, key: string, facts: Facts,
      r: Result<string, Error>)
  {
    && (NoKey(t, key) ==> NewKeyRule(t, t', kind, terms, key, facts, r))
    && (Unique(t) ==> forall i :: 0 <= i < |t| && t[i].key == key ==> UsedKeyRule(t, t', i, kind, terms, facts, r))
  }

  /** The row is this sender's and still open. */
  ghost predicate MayConfirm(row: Payment, sender: string)
  {
    row.terms.sender == sender && row.status == Pending
  }

  /** The confirmation of row `i`: its whole effect on the table, and the cause of each error. */
  ghost predicate ConfirmRowRule(t: Table, t': Table, i: nat, sender: string, e: Execution, r: Result<string, Error>)
    requires i < |t|
  {
    && (r.Ok? <==> MayConfirm(t[i], sender) && e.Succeeded?
                   && forall j :: 0 <= j < |t| && j != i ==> t[j].digest != Some(e.digest))
    && (r.Ok? ==> r.value == e.digest && t' == t[i := t[i].(status := Confirmed, digest := Some(e.digest))])
    && (r == Err(NotYours) <==> t[i].terms.sender != sender)
    && (r == Err(NotPending) <==> t[i].terms.sender == sender && t[i].status != Pending)
    && (r == Err(ExecutionFailed) <==> MayConfirm(t[i], sender) && (e.Refused? || e.ReplyLost?))
    && (r == Err(ExecutionFailed) ==> t' == t[i := t[i].(status := Failed)])
    && (r == Err(StorageFailed) <==> MayConfirm(t[i], sender) && e.NotWritten?)
    && (r == Err(DigestTaken) <==> MayConfirm(t[i], sender) && e.Succeeded?
                                   && exists j :: 0 <= j < |t| && j != i && t[j].digest == Some(e.digest))
    && (r.Err? && r.error != ExecutionFailed ==> t' == t)
  }

  ghost predicate ConfirmRule(t: Table, t': Table, id: string, sender: string, e: Execution, r: Result<string, Error>)
  {
    && (r == Err(NotFound) <==> NoId(t, id))
    && (NoId(t, id) ==> t' == t)
    && (Unique(t) ==> forall i :: 0 <= i < |t| && t[i].id == id ==> ConfirmRowRule(t, t', i, sender, e, r))
  }

  /** A confirmation past its checks has its transaction executed, unless the chain refuses it. */
  ghost predicate ExecutedRule(t: Table, before: set<string>, after: set<string>, id: string, sender: string,
      e: Execution)
  {
    Unique(t) ==>
      forall d :: d in after <==>
        || d in before
        || (!e.Refused? && d == e.digest && exists i :: 0 <= i < |t| && t[i].id == id && MayConfirm(t[i], sender))
  }

  /** The checks after the key: they find the first fault, or none. */
  lemma {:induction false} EnvironmentFault(used: Option<Payment>, kind: Kind, terms: Terms, facts: Facts)
    requires terms.amount >= 10_000
    requires used.Some? ==> used.value.terms == terms && used.value.status == Pending
    ensures var error := EnvironmentError(kind, terms, facts);
            if error.Some? then !MayBuild(kind, terms, facts) && FirstFault(used, kind, terms, facts, error.value)
            else MayBuild(kind, terms, facts)
  {
  }

  lemma {:induction false} UsedKeyFollows(t: Table, i: nat, kind: Kind, terms: Terms, facts: Facts)
    requires Unique(t) && i < |t|
    ensures var (t', r) := Build(t, kind, terms, t[i].key, facts); UsedKeyRule(t, t', i, kind, terms, facts, r)
  {
    assert FindKey(t, t[i].key) == Some(i);
    if terms.amount >= 10_000 && t[i].terms == terms && t[i].status == Pending {
      EnvironmentFault(Some(t[i]), kind, terms, facts);
    }
  }

  lemma {:induction false} BuildFollowsRule(t: Table, kind: Kind, terms: Terms, key: string, facts: Facts)
    ensures BuildRule(t, Build(t, kind, terms, key, facts).0, kind, terms, key, facts,
                      Build(t, kind, terms, key, facts).1)
  {
    var (t', r) := Build(t, kind, terms, key, facts);
    if Unique(t) {
      forall i | 0 <= i < |t| && t[i].key == key ensures UsedKeyRule(t, t', i, kind, terms, facts, r) {
        UsedKeyFollows(t, i, kind, terms, facts);
      }
    }
  }

  lemma {:induction false} ConfirmFollowsRule(t: Table, id: string, sender: string, e: Execution, before: set<string>)
    ensures ConfirmRule(t, Confirm(t, id, sender, e).0, id, sender, e, Confirm(t, id, sender, e).1)
    ensures ExecutedRule(t, before, before + Digests(t, id, sender, e), id, sender, e)
  {
    var (t', r) := Confirm(t, id, sender, e);
    if Unique(t) {
      forall i | 0 <= i < |t| && t[i].id == id ensures ConfirmRowRule(t, t', i, sender, e, r) {
        assert FindId(t, id) == Some(i);
      }
    }
  }

  // ----- The service object -----

  class PaymentService {
    var tips: Table
    var sends: Table
    var executed: set<string>

    function Value(): State
      reads this
    {
      State(tips, sends, executed)
    }

    constructor ()
      ensures Value() == EMPTY
    {
      tips, sends, executed := [], [], {};
    }

    method BuildTipTransaction(terms: Terms, key: string, facts: Facts) returns (r: Result<string, Error>)
      modifies this
      ensures (Value(), r) == Apply(old(Value()), BuildOp(Tip, terms, key, facts))
      ensures BuildRule(old(tips), tips, Tip, terms, key, facts, r)
      ensures sends == old(sends) && executed == old(executed)
    {
      BuildFollowsRule(tips, Tip, terms, key, facts);
      if terms.amount < MIN_TIP_USDC {
        return Err(TooSmall);
      }
      var existing := FindKey(tips, key);
      if existing.Some? {
        var row := tips[existing.value];
        if row.terms != terms {
          return Err(ParamsDiffer);
        }
        if row.status != Pending {
          return Err(AlreadyProcessed);
        }
      }
      if !facts.senderKnown {
        return Err(SenderNotFound);
      }
      if facts.series.None? {
        return Err(SeriesNotFound);
      }
      var creator := facts.series.value.creator;
      if creator.None? {
        return Err(NoCreator);
      }
      if creator.value == terms.sender {
        return Err(OwnSeries);
      }
      if facts.balance.None? {
        return Err(ChainUnavailable);
      }
      if facts.balance.value < terms.amount {
        return Err(Insufficient);
      }
      if !facts.built {
        return Err(ChainUnavailable);
      }
      if existing.Some? {
        return Ok(tips[existing.value].id);
      }
      if FindId(tips, facts.freshId).Some? {
        return Err(StorageFailed);
      }
      tips := tips + [Payment(facts.freshId, terms, creator.value, key, Pending, None)];
      r := Ok(facts.freshId);
    }

    method BuildSendTransaction(terms: Terms, key: string, facts: Facts) returns (r: Result<string, Error>)
      modifies this
      ensures (Value(), r) == Apply(old(Value()), BuildOp(Send, terms, key, facts))
      ensures BuildRule(old(sends), sends, Send, terms, key, facts, r)
      ensures tips == old(tips) && executed == old(executed)
    {
      BuildFollowsRule(sends, Send, terms, key, facts);
      if terms.amount < MIN_TIP_USDC {
        return Err(TooSmall);
      }
      var existing := FindKey(sends, key);
      if existing.Some? {
        var row := sends[existing.value];
        if row.terms != terms {
          return Err(ParamsDiffer);
        }
        if row.status != Pending {
          return Err(AlreadyProcessed);
        }
      }
      if !facts.senderKnown {
        return Err(SenderNotFound);
      }
      if facts.balance.None? {
        return Err(ChainUnavailable);
      }
      if facts.balance.value < terms.amount {
        return Err(Insufficient);
      }
      if !facts.built {
        return Err(ChainUnavailable);
      }
      if existing.Some? {
        return Ok(sends[existing.value].id);
      }
      if FindId(sends, facts.freshId).Some? {
        return Err(StorageFailed);
      }
      sends := sends + [Payment(facts.freshId, terms, terms.target, key, Pending, None)];
      r := Ok(facts.freshId);
    }

    method ConfirmTip(id: string, sender: string, e: Execution) returns (r: Result<string, Error>)
      modifies this
      ensures (Value(), r) == Apply(old(Value()), ConfirmOp(Tip, id, sender, e))
      ensures ConfirmRule(old(tips), tips, id, sender, e, r)
      ensures ExecutedRule(old(tips), old(executed), executed, id, sender, e) && sends == old(sends)
    {
      ConfirmFollowsRule(tips, id, sender, e, executed);
      assert executed + {} == executed;
      var i := FindId(tips, id);
      if i.None? {
        return Err(NotFound);
      }
      var row := tips[i.value];
      if row.terms.sender != sender {
        return Err(NotYours);
      }
      if row.status != Pending {
        return Err(NotPending);
      }
      executed := executed + if e.Refused? then {} else {e.digest};
      if e.NotWritten? {
        return Err(StorageFailed);
      }
      if !e.Succeeded? {
        tips := tips[i.value := row.(status := Failed)];
        return Err(ExecutionFailed);
      }
      if DigestElsewhere(tips, i.value, e.digest) {
        return Err(DigestTaken);
      }
      tips := tips[i.value := row.(status := Confirmed, digest := Some(e.digest))];
      r := Ok(e.digest);
    }

    method SubmitSend(id: string, sender: string, e: Execution) returns (r: Result<string, Error>)
      modifies this
      ensures (Value(), r) == Apply(old(Value()), ConfirmOp(Send, id, sender, e))
      ensures ConfirmRule(old(sends), sends, id, sender, e, r)
      ensures ExecutedRule(old(sends), old(executed), executed, id, sender, e) && tips == old(tips)
    {
      ConfirmFollowsRule(sends, id, sender, e, executed);
      assert executed + {} == executed;
      var i := FindId(sends, id);
      if i.None? {
        return Err(NotFound);
      }
      var row := sends[i.value];
      if row.terms.sender != sender {
        return Err(NotYours);
      }
      if row.status != Pending {
        return Err(NotPending);
      }
      executed := executed + if e.Refused? then {} else {e.digest};
      if e.NotWritten? {
        return Err(StorageFailed);
      }
      if !e.Succeeded? {
        sends := sends[i.value := row.(status := Failed)];
        return Err(ExecutionFailed);
      }
      if DigestElsewhere(sends, i.value, e.digest) {
        return Err(DigestTaken);
      }
      sends := sends[i.value := row.(status := Confirmed, digest := Some(e.digest))];
      r := Ok(e.digest);
    }
  }

  // ----- What every run keeps -----

  ghost predicate Honest(t: Table, executed: set<string>)
  {
    forall i :: 0 <= i < |t| ==>
      && t[i].terms.amount >= MIN_TIP_USDC
      && (t[i].status == Confirmed <==> t[i].digest.Some?)
      && (t[i].digest.Some? ==> t[i].digest.value in executed)
  }

  ghost predicate Sound(s: State)
  {
    && Unique(s.tips) && Unique(s.sends)
    && Honest(s.tips, s.executed) && Honest(s.sends, s.executed)
  }

  lemma {:induction false} BuildKeeps(t: Table, kind: Kind, terms: Terms, key: string, facts: Facts,
      executed: set<string>)
    requires Unique(t) && Honest(t, executed)
    ensures var t' := Build(t, kind, terms, key, facts).0; Unique(t') && Honest(t', executed)
  {
  }

  lemma {:induction false} ConfirmKeeps(t: Table, id: string, sender: string, e: Execution, executed: set<string>)
    requires Unique(t) && Honest(t, executed)
    ensures var t' := Confirm(t, id, sender, e).0; Unique(t') && Honest(t', executed + Digests(t, id, sender, e))
  {
  }

  /**
    In every reachable state a key and a digest name at most one row, and CONFIRMED means an executed
    digest is stored.
   */
  lemma {:induction false} RunSound(ops: seq<Op>)
    ensures Sound(Run(ops))
    decreases |ops|
  {
    if ops != [] {
      RunSound(ops[..|ops| - 1]);
      var s, op := Run(ops[..|ops| - 1]), ops[|ops| - 1];
      if op.BuildOp? {
        BuildKeeps(s.Of(op.kind), op.kind, op.terms, op.key, op.facts, s.executed);
      } else {
        ConfirmKeeps(s.Of(op.kind), op.id, op.sender, op.execution, s.executed);
      }
    }
  }

  /** Rows stay, their parameters never change, and settled rows never change at all. */
  ghost predicate Extends(t: Table, t': Table)
  {
    && |t| <= |t'|
    && forall i :: 0 <= i < |t| ==>
         && t'[i].id == t[i].id && t'[i].key == t[i].key && t'[i].terms == t[i].terms && t'[i].receiver == t[i].receiver
         && (t[i].status != Pending ==> t'[i] == t[i])
  }

  lemma {:induction false} BuildExtends(t: Table, kind: Kind, terms: Terms, key: string, facts: Facts)
    ensures Extends(t, Build(t, kind, terms, key, facts).0)
  {
  }

  lemma {:induction false} StepExtends(s: State, op: Op, kind: Kind)
    ensures Extends(s.Of(kind), Apply(s, op).0.Of(kind))
  {
    if op.BuildOp? {
      BuildExtends(s.Of(op.kind), op.kind, op.terms, op.key, op.facts);
    }
  }

  lemma {:induction false} RowsPersist(ops: seq<Op>, i: nat, kind: Kind)
    requires i <= |ops|
    ensures Extends(Run(ops[..i]).Of(kind), Run(ops).Of(kind))
    decreases |ops|
  {
    if i == |ops| {
      assert ops[..i] == ops;
    } else {
      var front := ops[..|ops| - 1];
      RowsPersist(front, i, kind);
      assert front[..i] == ops[..i];
      StepExtends(Run(front), ops[|ops| - 1], kind);
    }
  }

  // ----- Repeated keys -----

  /** A repeat of a used key changes nothing and returns the row's id exactly if it is PENDING with equal parameters. */
  lemma {:induction false} RepeatedBuild(ops: seq<Op>, kind: Kind, i: nat, terms: Terms, facts: Facts)
    requires i < |Run(ops).Of(kind)|
    ensures var t := Run(ops).Of(kind);
            var (t', r) := Build(t, kind, terms, t[i].key, facts);
            UsedKeyRule(t, t', i, kind, terms, facts, r)
  {
    RunSound(ops);
    UsedKeyFollows(Run(ops).Of(kind), i, kind, terms, facts);
  }

  /** A build with an unused key succeeds exactly if its own checks do, and adds the one PENDING row. */
  lemma {:induction false} FirstBuild(t: Table, kind: Kind, terms: Terms, key: string, facts: Facts)
    requires NoKey(t, key)
    ensures var (t', r) := Build(t, kind, terms, key, facts); NewKeyRule(t, t', kind, terms, key, facts, r)
  {
  }

  function ResultOf(ops: seq<Op>, i: nat): Result<string, Error>
    requires i < |ops|
  {
    Apply(Run(ops[..i]), ops[i]).1
  }

  /** Over a whole run, all successful builds with one key agree on parameters and return one id. */
  lemma {:induction false} OneKeyOnePayment(ops: seq<Op>, i: nat, j: nat)
    requires i < j < |ops| && ops[i].BuildOp? && ops[j].BuildOp?
    requires ops[i].kind == ops[j].kind && ops[i].key == ops[j].key
    requires ResultOf(ops, i).Ok? && ResultOf(ops, j).Ok?
    ensures ResultOf(ops, i) == ResultOf(ops, j) && ops[i].terms == ops[j].terms
  {
    var op, before, now := ops[i], ops[..j], ops[..i + 1];
    assert before[..i + 1] == now && now[..i] == ops[..i];
    BuiltRow(Run(ops[..i]).Of(op.kind), op);
    var t := Run(now).Of(op.kind);
    var k := FindKey(t, op.key).value;
    RowsPersist(before, i + 1, op.kind);
    RepeatedBuild(before, op.kind, k, ops[j].terms, ops[j].facts);
  }

  lemma {:induction false} BuiltRow(t: Table, op: Op)
    requires op.BuildOp? && Build(t, op.kind, op.terms, op.key, op.facts).1.Ok?
    ensures var (t', r) := Build(t, op.kind, op.terms, op.key, op.facts);
            FindKey(t', op.key).Some?
            && var row := t'[FindKey(t', op.key).value];
               row.id == r.value && row.terms == op.terms && row.key == op.key
  {
  }

  /** A confirmed row is still there, CONFIRMED, later in the run. */
  lemma {:induction false} ConfirmedStays(ops: seq<Op>, i: nat, j: nat) returns (k: nat)
    requires i < j <= |ops| && ops[i].ConfirmOp? && ResultOf(ops, i).Ok?
    ensures var u := Run(ops[..j]).Of(ops[i].kind);
            k < |u| && u[k].id == ops[i].id && u[k].status == Confirmed
  {
    var op, before, now := ops[i], ops[..j], ops[..i + 1];
    assert before[..i + 1] == now && now[..i] == ops[..i];
    k := ConfirmedRow(Run(ops[..i]).Of(op.kind), op.id, op.sender, op.execution);
    assert Run(now) == Apply(Run(ops[..i]), op).0;
    RowsPersist(before, i + 1, op.kind);
  }

  /** A payment is confirmed at most once in a run. */
  lemma {:induction false} ConfirmedOnce(ops: seq<Op>, i: nat, j: nat)
    requires i < j < |ops| && ops[i].ConfirmOp? && ops[j].ConfirmOp?
    requires ops[i].kind == ops[j].kind && ops[i].id == ops[j].id
    requires ResultOf(ops, i).Ok?
    ensures ResultOf(ops, j).Err?
  {
    var k := ConfirmedStays(ops, i, j);
    RunSound(ops[..j]);
    var s := Run(ops[..j]);
    SettledRefuses(s.Of(ops[j].kind), k, ops[j].sender, ops[j].execution);
  }

  lemma {:induction false} ConfirmedRow(t: Table, id: string, sender: string, e: Execution) returns (k: nat)
    requires Confirm(t, id, sender, e).1.Ok?
    ensures var t' := Confirm(t, id, sender, e).0; k < |t'| && t'[k].id == id && t'[k].status == Confirmed
  {
    k := FindId(t, id).value;
  }

  lemma {:induction false} SettledRefuses(t: Table, k: nat, sender: string, e: Execution)
    requires Unique(t) && k < |t| && t[k].status != Pending
    ensures Confirm(t, t[k].id, sender, e).0 == t && Confirm(t, t[k].id, sender, e).1.Err?
  {
    assert FindId(t, t[k].id) == Some(k);
  }

  // ----- Overlapping requests -----

  /**
    Two confirmations of one row that both passed the check: the later failure
    is written over CONFIRMED, so a FAILED row keeps a digest.
   */
  lemma {:induction false} OverlappingConfirms(t: Table, id: string, sender: string, digest: string)
    requires Unique(t) && CheckPending(t, id, sender).None?
    requires forall j :: 0 <= j < |t| ==> t[j].digest != Some(digest)
    ensures var t1 := WriteOutcome(t, id, Succeeded(digest)).0;
            var t2 := WriteOutcome(t1, id, Refused).0;
            exists i :: 0 <= i < |t2| && t2[i].id == id && t1[i].status == Confirmed
                        && t2[i].status == Failed && t2[i].digest == Some(digest)
  {
    var i := FindId(t, id).value;
    var t1 := WriteOutcome(t, id, Succeeded(digest)).0;
    assert t1[i].id == id;
    assert FindId(t1, id) == Some(i);
    var t2 := WriteOutcome(t1, id, Refused).0;
    assert t2[i].digest == Some(digest);
  }
}
