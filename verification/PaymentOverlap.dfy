/**
  Payment requests that overlap.  A build or a confirmation is two steps: its
  checks, then its write.  Between them other requests run, and the write does
  not check again.
 */
module PaymentOverlap {
  import opened Wrappers
  import opened Fresh
  import opened Payments

  type Ticket = nat

  /** A build past its checks; `existing` is the row it decided to reuse. */
  datatype Building = Building(terms: Terms, receiver: string, key: string, existing: Option<string>)

  /** One table with the requests past their checks; `confirms` gives the row id. */
  datatype Flight = Flight(
    table: Table, builds: map<Ticket, Building>, confirms: map<Ticket, string>, executed: set<string>)

  datatype Action =
    | BeginBuild(t: Ticket, kind: Kind, terms: Terms, key: string, facts: Facts)
    | EndBuild(t: Ticket, freshId: string)
    | BeginConfirm(t: Ticket, id: string, sender: string)
    | EndConfirm(t: Ticket, e: Execution)
    | Crash(t: Ticket)

  const EMPTY_FLIGHT := Flight([], map[], map[], {})

  function StartBuild(f: Flight, a: Action): Flight
    requires a.BeginBuild?
  {
    var existing := Precheck(f.table, a.terms, a.key);
    if a.t in f.builds || existing.Err? || EnvironmentError(a.kind, a.terms, a.facts).Some? then f
    else
      var b := Building(a.terms, Receiver(a.kind, a.terms, a.facts), a.key, existing.value);
      f.(builds := f.builds[a.t := b])
  }

  /** The last step of a build: reuse the row, or insert one. */
  function Place(t: Table, b: Building, freshId: string): (Table, Result<string, Error>)
  {
    if b.existing.Some? then (t, Ok(b.existing.value)) else Create(t, b.terms, b.receiver, b.key, freshId)
  }

  function Advance(f: Flight, a: Action): Flight
  {
    match a
    case BeginBuild(_, _, _, _, _) => StartBuild(f, a)
    case EndBuild(t, freshId) =>
      if t !in f.builds then f
      else f.(table := Place(f.table, f.builds[t], freshId).0, builds := f.builds - {t})
    case BeginConfirm(t, id, sender) =>
      if t in f.confirms || CheckPending(f.table, id, sender).Some? then f
      else f.(confirms := f.confirms[t := id])
    case EndConfirm(t, e) =>
      if t !in f.confirms then f
      else f.(table := WriteOutcome(f.table, f.confirms[t], e).0, confirms := f.confirms - {t},
              executed := f.executed + if e.Refused? then {} else {e.digest})
    case Crash(t) => f.(builds := f.builds - {t}, confirms := f.confirms - {t})
  }

  function Continue(f: Flight, actions: seq<Action>): Flight
  {
    if actions == [] then f else Advance(Continue(f, actions[..|actions| - 1]), actions[|actions| - 1])
  }

  // ----- Without overlap these are the sequential requests -----

  lemma {:induction false} BuildAlone(f: Flight, t: Ticket, kind: Kind, terms: Terms, key: string, facts: Facts)
    requires t !in f.builds
    ensures var f1 := Advance(f, BeginBuild(t, kind, terms, key, facts));
            var (table, r) := Build(f.table, kind, terms, key, facts);
            && Advance(f1, EndBuild(t, facts.freshId)) == f.(table := table)
            && (t in f1.builds ==> Place(f1.table, f1.builds[t], facts.freshId).1 == r)
            && (t !in f1.builds ==> r.Err?)
  {
    var f1 := Advance(f, BeginBuild(t, kind, terms, key, facts));
    if t in f1.builds {
      assert f1.builds - {t} == f.builds;
    }
  }

  lemma {:induction false} ConfirmAlone(f: Flight, t: Ticket, id: string, sender: string, e: Execution)
    requires t !in f.confirms
    ensures var f1 := Advance(f, BeginConfirm(t, id, sender));
            Advance(f1, EndConfirm(t, e))
            == f.(table := Confirm(f.table, id, sender, e).0, executed := f.executed + Digests(f.table, id, sender, e))
  {
    var f1 := Advance(f, BeginConfirm(t, id, sender));
    assert f.executed + {} == f.executed;
    if t in f1.confirms {
      assert f1.confirms - {t} == f.confirms;
    }
  }

  // ----- What survives every overlap -----

  /** A CONFIRMED row stores a digest, and a stored digest was executed. */
  ghost predicate DigestsExecuted(t: Table, executed: set<string>)
  {
    forall i :: 0 <= i < |t| ==>
      && (t[i].status == Confirmed ==> t[i].digest.Some?)
      && (t[i].digest.Some? ==> t[i].digest.value in executed)
  }

  /** The row with this id has this key and these terms. */
  ghost predicate RowIs(t: Table, id: string, key: string, terms: Terms)
  {
    exists i :: 0 <= i < |t| && t[i].id == id && t[i].key == key && t[i].terms == terms
  }

  ghost predicate ReusesOk(t: Table, builds: map<Ticket, Building>)
  {
    forall u :: u in builds && builds[u].existing.Some? ==>
      RowIs(t, builds[u].existing.value, builds[u].key, builds[u].terms)
  }

  ghost predicate Inv(f: Flight)
  {
    Unique(f.table) && DigestsExecuted(f.table, f.executed) && ReusesOk(f.table, f.builds)
  }

  /** Rows stay where they are, and never change id, key, parameters or receiver. */
  ghost predicate KeepsTerms(t: Table, t': Table)
  {
    && |t| <= |t'|
    && forall i :: 0 <= i < |t| ==>
         && t'[i].id == t[i].id && t'[i].key == t[i].key
         && t'[i].terms == t[i].terms && t'[i].receiver == t[i].receiver
  }

  lemma {:induction false} OutcomeKeeps(t: Table, id: string, e: Execution, executed: set<string>)
    requires Unique(t) && DigestsExecuted(t, executed)
    ensures var t' := WriteOutcome(t, id, e).0;
            && Unique(t') && KeepsTerms(t, t')
            && DigestsExecuted(t', executed + if e.Refused? then {} else {e.digest})
  {
  }

  lemma {:induction false} RowIsKept(t: Table, t': Table, builds: map<Ticket, Building>)
    requires KeepsTerms(t, t') && ReusesOk(t, builds)
    ensures ReusesOk(t', builds)
  {
    forall u | u in builds && builds[u].existing.Some?
      ensures RowIs(t', builds[u].existing.value, builds[u].key, builds[u].terms)
    {
      var i :| 0 <= i < |t| && t[i].id == builds[u].existing.value && t[i].key == builds[u].key
               && t[i].terms == builds[u].terms;
      assert t'[i].id == builds[u].existing.value;
    }
  }

  lemma {:induction false} AdvanceKeeps(f: Flight, a: Action)
    requires Inv(f)
    ensures Inv(Advance(f, a)) && KeepsTerms(f.table, Advance(f, a).table)
  {
    var f' := Advance(f, a);
    match a
    case BeginBuild(_, _, terms, key, _) =>
      var i := FindKey(f.table, key);
      assert i.Some? ==> f'.table[i.value].key == key;
    case EndBuild(t, freshId) =>
      if t in f.builds {
        RowIsKept(f.table, f'.table, f.builds);
      }
    case BeginConfirm(_, _, _) =>
    case EndConfirm(t, e) =>
      if t in f.confirms {
        OutcomeKeeps(f.table, f.confirms[t], e, f.executed);
        RowIsKept(f.table, f'.table, f.builds);
      }
    case Crash(_) =>
  }

  /** Under every overlap: one row per key, id and digest, parameters fixed, CONFIRMED only with an executed digest. */
  lemma {:induction false} OverlapSound(f: Flight, actions: seq<Action>)
    requires Inv(f)
    ensures Inv(Continue(f, actions)) && KeepsTerms(f.table, Continue(f, actions).table)
    decreases |actions|
  {
    if actions != [] {
      var front := actions[..|actions| - 1];
      OverlapSound(f, front);
      AdvanceKeeps(Continue(f, front), actions[|actions| - 1]);
    }
  }

  lemma {:induction false} ContinueSplit(f: Flight, actions: seq<Action>, i: nat)
    requires i <= |actions|
    ensures Continue(Continue(f, actions[..i]), actions[i..]) == Continue(f, actions)
    decreases |actions|
  {
    if i < |actions| {
      var n := |actions| - 1;
      ContinueSplit(f, actions[..n], i);
      assert actions[..n][..i] == actions[..i] && actions[..n][i..] == actions[i..][..n - i];
    } else {
      assert actions[..i] == actions && actions[i..] == [];
    }
  }

  // ----- When a settled row survives -----

  /** The outcomes that leave a settled row as it is. */
  predicate LeavesSettled(t: Table, i: nat, e: Execution)
    requires i < |t|
  {
    match e
    case NotWritten(_) => true
    case Refused => t[i].status == Failed
    case ReplyLost(_) => t[i].status == Failed
    case Succeeded(d) => DigestElsewhere(t, i, d) || (t[i].status == Confirmed && t[i].digest == Some(d))
  }

  /**
    The write of a confirmation keeps a settled row exactly if the outcome is
    the one already recorded or cannot be stored.
   */
  lemma {:induction false} OutcomeOnSettled(t: Table, id: string, e: Execution)
    requires FindId(t, id).Some? && t[FindId(t, id).value].status != Pending
    ensures WriteOutcome(t, id, e).0 == t <==> LeavesSettled(t, FindId(t, id).value, e)
    ensures WriteOutcome(t, id, e).0[FindId(t, id).value] == t[FindId(t, id).value]
            <==> LeavesSettled(t, FindId(t, id).value, e)
  {
    var i := FindId(t, id).value;
    assert t[i := t[i]] == t;
  }

  ghost predicate InFlight(f: Flight, id: string)
  {
    exists u :: u in f.confirms && f.confirms[u] == id
  }

  /** The row is what it was, whatever happens next. */
  ghost predicate SettledForGood(f: Flight, i: nat)
    requires i < |f.table|
  {
    forall actions :: i < |Continue(f, actions).table| && Continue(f, actions).table[i] == f.table[i]
  }

  /**
    A settled payment stays exactly as it is in every continuation if and only if no other
    confirmation of it is past its check.
   */
  lemma {:induction false} SettledExactly(f: Flight, i: nat)
    requires Inv(f) && i < |f.table| && f.table[i].status != Pending
    ensures SettledForGood(f, i) <==> !InFlight(f, f.table[i].id)
  {
    if InFlight(f, f.table[i].id) {
      var u :| u in f.confirms && f.confirms[u] == f.table[i].id;
      var e := UpsettingOutcome(f, i);
      OutcomeOnSettled(f.table, f.table[i].id, e);
      assert Continue(f, [EndConfirm(u, e)]).table[i] != f.table[i];
    } else {
      forall actions ensures i < |Continue(f, actions).table| && Continue(f, actions).table[i] == f.table[i] {
        SettledStays(f, i, actions);
      }
    }
  }

  /** A confirmed row is upset by a failure, a failed one by a success with a new digest. */
  lemma {:induction false} UpsettingOutcome(f: Flight, i: nat) returns (e: Execution)
    requires i < |f.table| && f.table[i].status != Pending
    ensures !LeavesSettled(f.table, i, e)
  {
    if f.table[i].status == Confirmed {
      e := Refused;
    } else {
      var used := set j | 0 <= j < |f.table| && f.table[j].digest.Some? :: f.table[j].digest.value;
      var d := FreshString(used);
      e := Succeeded(d);
      assert !DigestElsewhere(f.table, i, d);
    }
  }

  lemma {:induction false} SettledStays(f: Flight, i: nat, actions: seq<Action>)
    requires Inv(f) && i < |f.table| && f.table[i].status != Pending && !InFlight(f, f.table[i].id)
    ensures var f' := Continue(f, actions);
            i < |f'.table| && f'.table[i] == f.table[i] && !InFlight(f', f.table[i].id)
    decreases |actions|
  {
    if actions != [] {
      var front := actions[..|actions| - 1];
      SettledStays(f, i, front);
      OverlapSound(f, front);
      SettledStep(Continue(f, front), i, actions[|actions| - 1]);
    }
  }

  lemma {:induction false} SettledStep(f: Flight, i: nat, a: Action)
    requires Inv(f) && i < |f.table| && f.table[i].status != Pending && !InFlight(f, f.table[i].id)
    ensures var f' := Advance(f, a);
            i < |f'.table| && f'.table[i] == f.table[i] && !InFlight(f', f.table[i].id)
  {
    var f' := Advance(f, a);
    if a.EndConfirm? && a.t in f.confirms {
      assert f.confirms[a.t] != f.table[i].id;
    }
    forall u | u in f'.confirms ensures f'.confirms[u] != f.table[i].id {
      if u in f.confirms && f'.confirms[u] == f.confirms[u] {
        assert f.confirms[u] != f.table[i].id;
      }
    }
  }

  /** Two successes past the check: both transactions execute, and only the later digest is stored. */
  lemma {:induction false} BothExecute(f: Flight, u: Ticket, v: Ticket, i: nat, d: string, d': string)
    requires Inv(f) && i < |f.table| && u != v && u in f.confirms && v in f.confirms
    requires f.confirms[u] == f.table[i].id && f.confirms[v] == f.table[i].id
    requires d != d' && forall j :: 0 <= j < |f.table| ==> f.table[j].digest != Some(d) && f.table[j].digest != Some(d')
    ensures var f' := Advance(Advance(f, EndConfirm(u, Succeeded(d))), EndConfirm(v, Succeeded(d')));
            && {d, d'} <= f'.executed && i < |f'.table|
            && f'.table[i].status == Confirmed && f'.table[i].digest == Some(d')
            && forall j :: 0 <= j < |f'.table| ==> f'.table[j].digest != Some(d)
  {
    AdvanceKeeps(f, EndConfirm(u, Succeeded(d)));
  }

  // ----- When a build gets a payment with its own parameters -----

  /**
    `Create` returns a payment with the caller's parameters exactly if the key
    is unused and the new id is free, or the winner of the key asked for the same.
   */
  lemma {:induction false} CreateGivesOwnTerms(t: Table, b: Building, freshId: string)
    requires Unique(t) && b.existing.None?
    ensures var (t', r) := Place(t, b, freshId);
            && (r.Ok? && RowIs(t', r.value, b.key, b.terms)
                <==> if FindKey(t, b.key).Some? then t[FindKey(t, b.key).value].terms == b.terms
                     else FindId(t, freshId).None?)
            && (FindKey(t, b.key).Some? ==> t' == t && r == Ok(t[FindKey(t, b.key).value].id))
  {
    var (t', r) := Place(t, b, freshId);
    var k := FindKey(t, b.key);
    if k.Some? {
      if RowIs(t, t[k.value].id, b.key, b.terms) {
        var i :| 0 <= i < |t| && t[i].id == t[k.value].id && t[i].key == b.key && t[i].terms == b.terms;
      }
    } else if FindId(t, freshId).None? {
      assert t'[|t|].id == freshId;
    }
  }

  /** A build that found its row before keeps its parameters; the others are decided when they write. */
  lemma {:induction false} BuildGivesOwnTerms(actions: seq<Action>, u: Ticket, freshId: string)
    requires u in Continue(EMPTY_FLIGHT, actions).builds
    ensures var f := Continue(EMPTY_FLIGHT, actions); var b := f.builds[u]; var (t', r) := Place(f.table, b, freshId);
            (r.Ok? && RowIs(t', r.value, b.key, b.terms))
            <==> if FindKey(f.table, b.key).Some? then f.table[FindKey(f.table, b.key).value].terms == b.terms
                 else FindId(f.table, freshId).None?
  {
    OverlapSound(EMPTY_FLIGHT, actions);
    var f := Continue(EMPTY_FLIGHT, actions);
    var b := f.builds[u];
    if b.existing.None? {
      CreateGivesOwnTerms(f.table, b, freshId);
    } else {
      assert RowIs(f.table, b.existing.value, b.key, b.terms);
      var i :| 0 <= i < |f.table| && f.table[i].id == b.existing.value && f.table[i].key == b.key
               && f.table[i].terms == b.terms;
      OneFindKey(f.table, i);
    }
  }

  lemma {:induction false} OneFindKey(t: Table, i: nat)
    requires Unique(t) && i < |t|
    ensures FindKey(t, t[i].key) == Some(i)
  {
    var j := FindKey(t, t[i].key);
    assert j.Some? && t[j.value].key == t[i].key;
  }

  predicate Built(f: Flight, a: Action, key: string)
  {
    && a.EndBuild? && a.t in f.builds && f.builds[a.t].key == key
    && Place(f.table, f.builds[a.t], a.freshId).1.Ok?
  }

  function BuiltId(f: Flight, a: Action): string
    requires a.EndBuild? && a.t in f.builds && Place(f.table, f.builds[a.t], a.freshId).1.Ok?
  {
    Place(f.table, f.builds[a.t], a.freshId).1.value
  }

  /** What a successful build leaves: a row with its key and the returned id. */
  lemma {:induction false} BuiltRow(f: Flight, a: Action, key: string) returns (k: nat)
    requires Inv(f) && Built(f, a, key)
    ensures var t' := Advance(f, a).table; k < |t'| && t'[k].key == key && t'[k].id == BuiltId(f, a)
  {
    var b := f.builds[a.t];
    if b.existing.Some? {
      k :| k < |f.table| && f.table[k].id == b.existing.value && f.table[k].key == b.key && f.table[k].terms == b.terms;
    } else if FindKey(f.table, key).Some? {
      k := FindKey(f.table, key).value;
    } else {
      k := |f.table|;
    }
  }

  /** Even when builds overlap, all successful builds with one key return one id. */
  lemma {:induction false} OneKeyOneId(actions: seq<Action>, i: nat, j: nat, key: string)
    requires i < j < |actions|
    requires Built(Continue(EMPTY_FLIGHT, actions[..i]), actions[i], key)
    requires Built(Continue(EMPTY_FLIGHT, actions[..j]), actions[j], key)
    ensures BuiltId(Continue(EMPTY_FLIGHT, actions[..i]), actions[i])
            == BuiltId(Continue(EMPTY_FLIGHT, actions[..j]), actions[j])
  {
    var f, g := Continue(EMPTY_FLIGHT, actions[..i]), Continue(EMPTY_FLIGHT, actions[..j]);
    OverlapSound(EMPTY_FLIGHT, actions[..i]);
    OverlapSound(EMPTY_FLIGHT, actions[..j]);
    var k := BuiltRow(f, actions[i], key);
    var f1 := Advance(f, actions[i]);
    AdvanceKeeps(f, actions[i]);
    assert actions[..j][..i + 1] == actions[..i + 1] && actions[..i + 1][..i] == actions[..i];
    assert Continue(EMPTY_FLIGHT, actions[..i + 1]) == f1;
    ContinueSplit(EMPTY_FLIGHT, actions[..j], i + 1);
    OverlapSound(f1, actions[..j][i + 1..]);
    assert g.table[k].key == key && g.table[k].id == BuiltId(f, actions[i]);
    AdvanceKeeps(g, actions[j]);
    var l := BuiltRow(g, actions[j], key);
    var g1 := Advance(g, actions[j]);
    OneFindKey(g1.table, k);
    OneFindKey(g1.table, l);
  }
}
