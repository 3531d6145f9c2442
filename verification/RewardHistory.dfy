/**
  Where keys and badges in flight come from, and how they get lost, in terms of
  the actions of a run.
 */
module RewardHistory {
  import opened Wrappers
  import opened Keys
  import opened InkStores
  import opened RewardMachine
  import opened RewardInvariant
  import opened RewardSteps
  import opened RewardEffects
  import opened RewardFrames

  /** What the chain accepts once: an INK key or a badge. */
  datatype Token = Ink(key: InkKey) | Badge(badge: BadgeKey)

  predicate Minted(s: State, x: Token)
  {
    if x.Ink? then x.key in s.chain.registry else x.badge in s.chain.badges
  }

  predicate Mirrored(s: State, x: Token)
  {
    if x.Ink? then x.key in s.mirror.ledger else x.badge in BadgeKeys(s.badgeRows)
  }

  predicate Holds(s: State, t: ThreadId, x: Token)
  {
    if x.Ink? then HeldNow(s, t) == Some(x.key) else BadgeNow(s, t) == Some(x.badge)
  }

  ghost predicate FateLostOf(s: State, x: Token)
  {
    if x.Ink? then IsLost(s.fate, x.key) else IsLost(s.badgeFate, x.badge)
  }

  ghost predicate OnlyHolder(s: State, t: ThreadId, x: Token)
  {
    Holds(s, t, x) && forall u: ThreadId :: Holds(s, u, x) ==> u == t
  }

  /** Under the invariant, the fates say exactly who holds what and what was lost. */
  lemma {:induction false} TokenFates(s: State, x: Token)
    requires Inv(s)
    ensures forall t: ThreadId :: Holds(s, t, x) ==> Minted(s, x) && !Mirrored(s, x) && OnlyHolder(s, t, x)
    ensures FateLostOf(s, x) <==> Minted(s, x) && !Mirrored(s, x) && forall t: ThreadId :: !Holds(s, t, x)
  {
    if x.Ink? {
      KeyFates(s, x.key);
      assert forall t: ThreadId :: Holds(s, t, x) <==> HeldNow(s, t) == Some(x.key);
    } else {
      BadgeFates(s, x.badge);
      assert forall t: ThreadId :: Holds(s, t, x) <==> BadgeNow(s, t) == Some(x.badge);
      forall t: ThreadId | Holds(s, t, x) ensures OnlyHolder(s, t, x) {
        assert s.badgeFate[x.badge] == InFlight(t);
      }
    }
  }

  lemma {:induction false} KeyFates(s: State, k: InkKey)
    requires FateOk(s)
    ensures forall t: ThreadId :: HeldNow(s, t) == Some(k) ==>
              k in s.chain.registry && k !in s.mirror.ledger && s.fate[k] == InFlight(t)
    ensures IsLost(s.fate, k) <==>
              k in s.chain.registry && k !in s.mirror.ledger && forall t: ThreadId :: HeldNow(s, t) != Some(k)
  {
    forall t: ThreadId | HeldNow(s, t) == Some(k)
      ensures k in s.chain.registry && k !in s.mirror.ledger && s.fate[k] == InFlight(t)
    {
      assert t in HeldKeys(s.threads) && HeldKeys(s.threads)[t] == k;
    }
    if k in s.fate && s.fate[k].InFlight? {
      assert HeldNow(s, s.fate[k].thread) == Some(k);
    }
  }

  lemma {:induction false} BadgeFates(s: State, b: BadgeKey)
    requires BadgeFateOk(s)
    ensures forall t: ThreadId :: BadgeNow(s, t) == Some(b) ==>
              b in s.chain.badges && b !in BadgeKeys(s.badgeRows) && s.badgeFate[b] == InFlight(t)
    ensures IsLost(s.badgeFate, b) <==>
              b in s.chain.badges && b !in BadgeKeys(s.badgeRows) && forall t: ThreadId :: BadgeNow(s, t) != Some(b)
  {
    forall t: ThreadId | BadgeNow(s, t) == Some(b)
      ensures b in s.chain.badges && b !in BadgeKeys(s.badgeRows) && s.badgeFate[b] == InFlight(t)
    {
      assert t in HeldBadges(s.threads) && HeldBadges(s.threads)[t] == b;
    }
    if b in s.badgeFate && s.badgeFate[b].InFlight? {
      assert BadgeNow(s, s.badgeFate[b].thread) == Some(b);
    }
  }

  // ----- One action -----

  /** A thread holds a token only because it held it before, or because its own call just added it to the chain. */
  lemma {:induction false} HoldsAfter(s: State, a: Action, t: ThreadId, x: Token)
    requires Holds(Apply(s, a), t, x)
    ensures Holds(s, t, x) || (a == Step(t, Good) && !Minted(s, x) && Minted(Apply(s, a), x))
  {
    if a.Step? && a.t in s.threads {
      StepEffect(s, a.t, a.outcome);
    }
  }

  lemma {:induction false} MintedStays(s: State, a: Action, x: Token)
    requires Minted(s, x)
    ensures Minted(Apply(s, a), x)
  {
    if a.Step? && a.t in s.threads {
      StepEffect(s, a.t, a.outcome);
    }
  }

  lemma {:induction false} MirroredByHolder(s: State, a: Action, x: Token)
    requires Mirrored(Apply(s, a), x) && !Mirrored(s, x)
    ensures a.Step? && a.outcome == Good && Holds(s, a.t, x)
  {
    if x.Ink? {
      LedgerGrowsByHolder(s, a, x.key);
    } else if a.Step? && a.t in s.threads {
      StepEffect(s, a.t, a.outcome);
      BadgeRowAppended(s, a.t, Apply(s, a), x.badge);
    }
  }

  lemma {:induction false} BadgeRowAppended(s: State, t: ThreadId, s': State, b: BadgeKey)
    requires RowsEffect(s, t, s') && b in BadgeKeys(s'.badgeRows) && b !in BadgeKeys(s.badgeRows)
    ensures s'.badgeRows != s.badgeRows && BadgeNow(s, t) == Some(b)
  {
    if BadgeNow(s, t).Some? {
      var id :| s'.badgeRows == s.badgeRows + [BadgeRow(BadgeNow(s, t).value, id)];
      BadgeKeysAppend(s.badgeRows, BadgeRow(BadgeNow(s, t).value, id));
    }
  }

  /** The action ended the thread that held the token, or the thread whose call added it when the reply was lost. */
  predicate Drops(s: State, a: Action, x: Token)
  {
    && (a.Step? || a.Crash?) && a.t in s.threads && a.t !in Apply(s, a).threads
    && (Holds(s, a.t, x) || (a.Step? && a.outcome == LostReply && !Minted(s, x)))
    && Minted(Apply(s, a), x) && !Mirrored(Apply(s, a), x)
  }

  lemma {:induction false} NewlyLost(s: State, a: Action, x: Token)
    requires Inv(s) && FateLostOf(Apply(s, a), x) && !FateLostOf(s, x)
    ensures Drops(s, a, x)
  {
    ApplyInv(s, a);
    TokenFates(Apply(s, a), x);
    if a.Step? && a.t in s.threads {
      StepEffect(s, a.t, a.outcome);
    }
  }

  lemma {:induction false} DroppedIsLost(s: State, a: Action, x: Token)
    requires Inv(s) && Drops(s, a, x)
    ensures FateLostOf(Apply(s, a), x)
  {
    ApplyInv(s, a);
    TokenFates(s, x);
    TokenFates(Apply(s, a), x);
    forall t: ThreadId ensures !Holds(Apply(s, a), t, x) {
      if Holds(Apply(s, a), t, x) {
        HoldsAfter(s, a, t, x);
      }
    }
  }

  lemma {:induction false} LostStays(s: State, a: Action, x: Token)
    requires Inv(s) && FateLostOf(s, x)
    ensures FateLostOf(Apply(s, a), x)
  {
    ApplyInv(s, a);
    TokenFates(s, x);
    TokenFates(Apply(s, a), x);
    MintedStays(s, a, x);
    if Mirrored(Apply(s, a), x) {
      MirroredByHolder(s, a, x);
    }
    forall t: ThreadId ensures !Holds(Apply(s, a), t, x) {
      if Holds(Apply(s, a), t, x) {
        HoldsAfter(s, a, t, x);
      }
    }
  }

  // ----- Runs -----

  /** Action `i` is the successful call of thread `t` that added the token, and `t` has held it ever since. */
  ghost predicate HeldSince(actions: seq<Action>, i: nat, t: ThreadId, x: Token)
  {
    && i < |actions| && actions[i] == Step(t, Good)
    && !Minted(Run(actions[..i]), x) && Minted(Run(actions[..i + 1]), x)
    && forall j :: i < j <= |actions| ==> Holds(Run(actions[..j]), t, x)
  }

  ghost predicate LostAt(actions: seq<Action>, i: nat, x: Token)
  {
    i < |actions| && Drops(Run(actions[..i]), actions[i], x)
  }

  lemma {:induction false} LastAction(actions: seq<Action>)
    requires actions != []
    ensures Run(actions) == Apply(Run(actions[..|actions| - 1]), actions[|actions| - 1])
    ensures actions[..|actions|] == actions
    ensures forall i :: 0 <= i < |actions| ==> actions[..|actions| - 1][..i] == actions[..i]
  {
  }

  lemma {:induction false} HeldSinceExtends(actions: seq<Action>, i: nat, t: ThreadId, x: Token)
    requires actions != [] && HeldSince(actions[..|actions| - 1], i, t, x) && Holds(Run(actions), t, x)
    ensures HeldSince(actions, i, t, x)
  {
    var front := actions[..|actions| - 1];
    assert front[..i] == actions[..i] && front[..i + 1] == actions[..i + 1];
    forall j | i < j <= |actions| ensures Holds(Run(actions[..j]), t, x) {
      if j < |actions| {
        assert front[..j] == actions[..j];
      } else {
        assert actions[..j] == actions;
      }
    }
  }

  lemma {:induction false} HeldProvenance(actions: seq<Action>, t: ThreadId, x: Token) returns (i: nat)
    requires Holds(Run(actions), t, x)
    ensures HeldSince(actions, i, t, x)
    decreases |actions|
  {
    assert actions != [];
    LastAction(actions);
    var n := |actions| - 1;
    if Holds(Run(actions[..n]), t, x) {
      i := HeldProvenance(actions[..n], t, x);
      HeldSinceExtends(actions, i, t, x);
    } else {
      HoldsAfter(Run(actions[..n]), actions[n], t, x);
      i := n;
      assert actions[..n + 1] == actions;
    }
  }

  lemma {:induction false} LostProvenance(actions: seq<Action>, x: Token) returns (i: nat)
    requires FateLostOf(Run(actions), x)
    ensures LostAt(actions, i, x)
    decreases |actions|
  {
    assert actions != [];
    LastAction(actions);
    var n := |actions| - 1;
    if FateLostOf(Run(actions[..n]), x) {
      i := LostProvenance(actions[..n], x);
    } else {
      RunInv(actions[..n]);
      NewlyLost(Run(actions[..n]), actions[n], x);
      i := n;
    }
  }

  lemma {:induction false} LostForGood(actions: seq<Action>, i: nat, x: Token)
    requires LostAt(actions, i, x)
    ensures FateLostOf(Run(actions), x)
    decreases |actions|
  {
    LastAction(actions);
    var n := |actions| - 1;
    RunInv(actions[..n]);
    if i == n {
      DroppedIsLost(Run(actions[..n]), actions[n], x);
    } else {
      LostForGood(actions[..n], i, x);
      LostStays(Run(actions[..n]), actions[n], x);
    }
  }
}
