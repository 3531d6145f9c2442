/**
  Sign-in with a two-phase commit: intent row, one chain transaction that
  creates three objects, finalising database transaction.  Logins run one at a
  time and can stop at any point; the identity provider's address function is
  fixed.
 */
module Bootstrap {
  import opened Wrappers

  type Claims = string
  type Wallet = string
  /** Objects are numbered in the order the chain created them. */
  type ObjectId = nat

  datatype Kind = Passport | Library | Journal
  datatype Owned = Owned(owner: Wallet, kind: Kind)

  datatype BootstrapState = Pending | Complete
  datatype User = User(wallet: Wallet, state: BootstrapState, libraryId: Option<ObjectId>, journalId: Option<ObjectId>)

  datatype State = State(users: map<Claims, User>, passports: map<Claims, ObjectId>, chain: seq<Owned>)

  /** Where a login stops: before its first write, before or after the chain committed, or in the final transaction. */
  datatype Fault = NoFault | BeforeIntent | ChainRefused | ChainReplyLost | FinaliseFails

  datatype Ids = Ids(passport: ObjectId, library: ObjectId, journal: ObjectId)

  const START: State := State(map[], map[], [])

  // ----- One login -----

  /** The unique constraint on wallet addresses. */
  predicate WalletTaken(users: map<Claims, User>, w: Wallet) { exists d :: d in users && users[d].wallet == w }

  /** Position of the first object `o`, or |chain|. */
  function Find(chain: seq<Owned>, o: Owned): (i: nat)
    ensures i <= |chain| && (i < |chain| ==> chain[i] == o)
    ensures i == |chain| <==> o !in chain
  {
    if chain == [] then 0
    else if chain[0] == o then 0
    else 1 + Find(chain[1..], o)
  }

  function FindBootstrap(chain: seq<Owned>, w: Wallet): Option<Ids>
  {
    var p, l, j := Find(chain, Owned(w, Passport)), Find(chain, Owned(w, Library)), Find(chain, Owned(w, Journal));
    if p < |chain| && l < |chain| && j < |chain| then Some(Ids(p, l, j)) else None
  }

  function Created(w: Wallet): seq<Owned> { [Owned(w, Passport), Owned(w, Library), Owned(w, Journal)] }

  function Finalised(s: State, c: Claims, ids: Ids): State
    requires c in s.users
  {
    s.(passports := s.passports[c := ids.passport],
       users := s.users[c := s.users[c].(state := Complete, libraryId := Some(ids.library),
           journalId := Some(ids.journal))])
  }

  /** Phases B and C. */
  function ChainThenFinalise(s: State, c: Claims, f: Fault): State
    requires c in s.users
  {
    if f == ChainRefused then s
    else
      var n := |s.chain|;
      var s1 := s.(chain := s.chain + Created(s.users[c].wallet));
      if f == ChainReplyLost || f == FinaliseFails then s1 else Finalised(s1, c, Ids(n, n + 1, n + 2))
  }

  function Login(s: State, address: Claims -> Wallet, c: Claims, f: Fault): State
  {
    if f == BeforeIntent then s
    else if c !in s.users then
      if WalletTaken(s.users, address(c)) then s
      else ChainThenFinalise(s.(users := s.users[c := User(address(c), Pending, None, None)]), c, f)
    else if s.users[c].state != Complete then
      match FindBootstrap(s.chain, s.users[c].wallet)
      case Some(ids) => if f == FinaliseFails then s else Finalised(s, c, ids)
      case None => ChainThenFinalise(s, c, f)
    else if s.users[c].wallet != address(c) && !WalletTaken(s.users, address(c)) then
      s.(users := s.users[c := s.users[c].(wallet := address(c))])
    else s
  }

  datatype Attempt = Attempt(claims: Claims, fault: Fault)

  function Run(address: Claims -> Wallet, attempts: seq<Attempt>): State
  {
    if attempts == [] then START
    else
      var last := attempts[|attempts| - 1];
      Login(Run(address, attempts[..|attempts| - 1]), address, last.claims, last.fault)
  }

  // ----- What a login promises -----

  predicate OwnsAll(chain: seq<Owned>, w: Wallet)
  {
    Owned(w, Passport) in chain && Owned(w, Library) in chain && Owned(w, Journal) in chain
  }

  predicate OwnsNone(chain: seq<Owned>, w: Wallet)
  {
    Owned(w, Passport) !in chain && Owned(w, Library) !in chain && Owned(w, Journal) !in chain
  }

  /** The stored ids name this wallet's passport, library and journal. */
  predicate IdsName(s: State, c: Claims)
    requires c in s.users
  {
    var u := s.users[c];
    && c in s.passports && u.libraryId.Some? && u.journalId.Some?
    && s.passports[c] < |s.chain| && s.chain[s.passports[c]] == Owned(u.wallet, Passport)
    && u.libraryId.value < |s.chain| && s.chain[u.libraryId.value] == Owned(u.wallet, Library)
    && u.journalId.value < |s.chain| && s.chain[u.journalId.value] == Owned(u.wallet, Journal)
  }

  predicate IsComplete(s: State, c: Claims) { c in s.users && s.users[c].state == Complete }

  ghost predicate WalletHeld(s: State, w: Wallet)
  {
    exists d :: d in s.users && s.users[d].wallet == w
  }

  /** When a login reports success. */
  ghost predicate LoginSucceeds(s: State, address: Claims -> Wallet, c: Claims, f: Fault)
  {
    if f == BeforeIntent then false
    else if c !in s.users then !WalletHeld(s, address(c)) && f == NoFault
    else if s.users[c].state == Pending then f == NoFault || (f != FinaliseFails && OwnsAll(s.chain, s.users[c].wallet))
    else s.users[c].wallet == address(c) || !WalletHeld(s, address(c))
  }

  /** When a login has the chain create the three objects. */
  ghost predicate LoginCreates(s: State, address: Claims -> Wallet, c: Claims, f: Fault)
  {
    && f != BeforeIntent && f != ChainRefused
    && if c !in s.users then !WalletHeld(s, address(c))
       else s.users[c].state == Pending && !OwnsAll(s.chain, s.users[c].wallet)
  }

  /** Other accounts are left alone, and the chain gains exactly one set of objects, for this wallet, or nothing. */
  ghost predicate LoginFrame(s: State, s': State, address: Claims -> Wallet, c: Claims, f: Fault)
  {
    && (forall d :: d != c ==> (d in s'.users <==> d in s.users) && (d in s'.passports <==> d in s.passports))
    && (forall d :: d != c && d in s.users ==> s'.users[d] == s.users[d])
    && (forall d :: d != c && d in s.passports ==> s'.passports[d] == s.passports[d])
    && (LoginCreates(s, address, c, f) ==>
          var w := if c in s.users then s.users[c].wallet else address(c);
          s'.chain == s.chain + [Owned(w, Passport), Owned(w, Library), Owned(w, Journal)])
    && (!LoginCreates(s, address, c, f) ==> s'.chain == s.chain)
  }

  /** The account's own rows after the login. */
  ghost predicate LoginRows(s: State, s': State, address: Claims -> Wallet, c: Claims, f: Fault)
  {
    if LoginSucceeds(s, address, c, f) then
      && IsComplete(s', c)
      && (if IsComplete(s, c) then s'.users[c] == s.users[c].(wallet := address(c)) && s'.passports == s.passports
          else IdsName(s', c) && s'.users[c].wallet == if c in s.users then s.users[c].wallet else address(c))
    else
      && s'.passports == s.passports
      && (if c !in s.users && f != BeforeIntent && !WalletHeld(s, address(c))
          then c in s'.users && s'.users[c] == User(address(c), Pending, None, None)
          else s'.users == s.users)
  }

  lemma {:induction false} NewLoginFollows(s: State, address: Claims -> Wallet, c: Claims, f: Fault)
    requires c !in s.users && f != BeforeIntent
    ensures LoginFrame(s, Login(s, address, c, f), address, c, f)
    ensures LoginRows(s, Login(s, address, c, f), address, c, f)
  {
    assert WalletTaken(s.users, address(c)) <==> WalletHeld(s, address(c));
  }

  lemma {:induction false} ResumeFollows(s: State, address: Claims -> Wallet, c: Claims, f: Fault)
    requires c in s.users && s.users[c].state == Pending && f != BeforeIntent
    ensures LoginFrame(s, Login(s, address, c, f), address, c, f)
    ensures LoginRows(s, Login(s, address, c, f), address, c, f)
  {
    var w := s.users[c].wallet;
    assert FindBootstrap(s.chain, w).Some? <==> OwnsAll(s.chain, w);
  }

  lemma {:induction false} LoginFollows(s: State, address: Claims -> Wallet, c: Claims, f: Fault)
    ensures LoginFrame(s, Login(s, address, c, f), address, c, f)
    ensures LoginRows(s, Login(s, address, c, f), address, c, f)
  {
    if f != BeforeIntent {
      if c !in s.users {
        NewLoginFollows(s, address, c, f);
      } else if s.users[c].state == Pending {
        ResumeFollows(s, address, c, f);
      } else {
        assert WalletTaken(s.users, address(c)) <==> WalletHeld(s, address(c));
      }
    }
  }

  // ----- The service object -----

  class AuthService {
    const address: Claims -> Wallet
    var users: map<Claims, User>
    var passports: map<Claims, ObjectId>
    var chain: seq<Owned>

    function Value(): State
      reads this
    {
      State(users, passports, chain)
    }

    constructor (address: Claims -> Wallet)
      ensures Value() == START && this.address == address
    {
      this.address := address;
      users, passports, chain := map[], map[], [];
    }

    /** One transaction on chain that creates all three objects, or none. */
    method Execute(w: Wallet, f: Fault) returns (r: Option<Ids>)
      modifies this`chain
      ensures f == ChainRefused ==> chain == old(chain) && r.None?
      ensures f != ChainRefused ==> chain == old(chain) + [Owned(w, Passport), Owned(w, Library), Owned(w, Journal)]
      ensures f == ChainReplyLost ==> r.None?
      ensures f != ChainRefused && f != ChainReplyLost ==>
                r == Some(Ids(|old(chain)|, |old(chain)| + 1, |old(chain)| + 2))
    {
      if f == ChainRefused {
        return None;
      }
      var n := |chain|;
      chain := chain + [Owned(w, Passport)];
      chain := chain + [Owned(w, Library)];
      chain := chain + [Owned(w, Journal)];
      r := if f == ChainReplyLost then None else Some(Ids(n, n + 1, n + 2));
    }

    method FinalizeBootstrap(c: Claims, ids: Ids, f: Fault) returns (ok: bool)
      requires c in users
      modifies this`users, this`passports
      ensures ok == (f != FinaliseFails)
      ensures Value() == if ok then Finalised(old(Value()), c, ids) else old(Value())
      ensures ok ==>
                && passports == old(passports)[c := ids.passport] && users.Keys == old(users).Keys
                && users[c] == User(old(users)[c].wallet, Complete, Some(ids.library), Some(ids.journal))
    {
      if f == FinaliseFails {
        return false;
      }
      passports := passports[c := ids.passport];
      users := users[c := users[c].(state := Complete, libraryId := Some(ids.library), journalId := Some(ids.journal))];
      ok := true;
    }

    /** Phase A, then B and C. */
    method CreateUserWithBootstrap(c: Claims, f: Fault) returns (ok: bool)
      requires c !in users && f != BeforeIntent
      modifies this
      ensures Value() == Login(old(Value()), address, c, f)
      ensures ok <==> LoginSucceeds(old(Value()), address, c, f)
      ensures LoginFrame(old(Value()), Value(), address, c, f) && LoginRows(old(Value()), Value(), address, c, f)
    {
      NewLoginFollows(Value(), address, c, f);
      if WalletTaken(users, address(c)) {
        return false;
      }
      users := users[c := User(address(c), Pending, None, None)];
      var ids := Execute(address(c), f);
      if ids.None? {
        return false;
      }
      ok := FinalizeBootstrap(c, ids.value, f);
    }

    /** Reuse the objects of an earlier attempt if the chain has all three; otherwise create them. */
    method ResumePendingBootstrap(c: Claims, f: Fault) returns (ok: bool)
      requires c in users && users[c].state != Complete && f != BeforeIntent
      modifies this
      ensures Value() == Login(old(Value()), address, c, f)
      ensures ok <==> LoginSucceeds(old(Value()), address, c, f)
      ensures LoginFrame(old(Value()), Value(), address, c, f) && LoginRows(old(Value()), Value(), address, c, f)
    {
      ResumeFollows(Value(), address, c, f);
      var ids := FindBootstrap(chain, users[c].wallet);
      if ids.None? {
        ids := Execute(users[c].wallet, f);
        if ids.None? {
          return false;
        }
      }
      ok := FinalizeBootstrap(c, ids.value, f);
    }

    method CompleteZkLogin(c: Claims, f: Fault) returns (ok: bool)
      modifies this
      ensures Value() == Login(old(Value()), address, c, f)
      ensures ok <==> LoginSucceeds(old(Value()), address, c, f)
      ensures LoginFrame(old(Value()), Value(), address, c, f) && LoginRows(old(Value()), Value(), address, c, f)
    {
      LoginFollows(Value(), address, c, f);
      if f == BeforeIntent {
        return false;
      }
      if c !in users {
        ok := CreateUserWithBootstrap(c, f);
      } else if users[c].state != Complete {
        ok := ResumePendingBootstrap(c, f);
      } else {
        ok := true;
        if users[c].wallet != address(c) {
          if WalletTaken(users, address(c)) {
            return false;
          }
          users := users[c := users[c].(wallet := address(c))];
        }
      }
    }
  }

  // ----- The invariant over runs -----

  /** No wallet owns two objects of one kind. */
  ghost predicate NoDuplicates(chain: seq<Owned>)
  {
    forall i, j :: 0 <= i < j < |chain| ==> chain[i] != chain[j]
  }

  ghost predicate Inv(s: State, address: Claims -> Wallet)
  {
    && NoDuplicates(s.chain)
    && (forall w :: OwnsAll(s.chain, w) || OwnsNone(s.chain, w))
    && (forall w :: !OwnsNone(s.chain, w) ==> WalletTaken(s.users, w))
    && (forall c :: c in s.users ==> s.users[c].wallet == address(c))
    && (forall c :: c in s.users && s.users[c].state == Complete ==> IdsName(s, c))
  }

  lemma {:induction false} CreatedKeepsOwnership(chain: seq<Owned>, w: Wallet)
    requires NoDuplicates(chain) && OwnsNone(chain, w)
    requires forall v :: OwnsAll(chain, v) || OwnsNone(chain, v)
    ensures NoDuplicates(chain + Created(w))
    ensures forall v :: OwnsAll(chain + Created(w), v) || OwnsNone(chain + Created(w), v)
    ensures forall v :: OwnsNone(chain + Created(w), v) <==> v != w && OwnsNone(chain, v)
  {
    var all := chain + Created(w);
    forall i, j | 0 <= i < j < |all| ensures all[i] != all[j] {
      if i < |chain| <= j {
        assert all[i] in chain;
      }
    }
    forall o: Owned ensures o in all <==> o in chain || o.owner == w {
      if o.owner == w {
        match o.kind
        case Passport => assert all[|chain|] == o;
        case Library => assert all[|chain| + 1] == o;
        case Journal => assert all[|chain| + 2] == o;
      } else if o in chain {
        var i :| 0 <= i < |chain| && chain[i] == o;
        assert all[i] == o;
      }
    }
    forall v ensures OwnsNone(all, v) <==> v != w && OwnsNone(chain, v) {
      assert Owned(v, Passport) in all <==> Owned(v, Passport) in chain || v == w;
      assert Owned(v, Library) in all <==> Owned(v, Library) in chain || v == w;
      assert Owned(v, Journal) in all <==> Owned(v, Journal) in chain || v == w;
    }
  }

  /** Chain and finalise for a user that is pending and owns nothing yet. */
  lemma {:induction false} ChainThenFinaliseInv(s: State, address: Claims -> Wallet, c: Claims, f: Fault)
    requires Inv(s, address) && c in s.users && s.users[c].state == Pending && OwnsNone(s.chain, s.users[c].wallet)
    ensures Inv(ChainThenFinalise(s, c, f), address)
  {
    if f != ChainRefused {
      var w := s.users[c].wallet;
      CreatedKeepsOwnership(s.chain, w);
      var s1 := s.(chain := s.chain + Created(w));
      forall d | d in s.users && s.users[d].state == Complete ensures IdsName(s1, d) {
        assert IdsName(s, d);
      }
      var s' := ChainThenFinalise(s, c, f);
      SameWallets(s.users, s'.users);
      forall d | d in s'.users && s'.users[d].state == Complete ensures IdsName(s', d) {
        if d != c { assert IdsName(s1, d); }
      }
    }
  }

  lemma {:induction false} SameWallets(users: map<Claims, User>, users': map<Claims, User>)
    requires forall d :: d in users ==> d in users' && users'[d].wallet == users[d].wallet
    ensures forall w :: WalletTaken(users, w) ==> WalletTaken(users', w)
  {
  }

  lemma {:induction false} FinalisedInv(s: State, address: Claims -> Wallet, c: Claims, ids: Ids)
    requires Inv(s, address) && c in s.users && FindBootstrap(s.chain, s.users[c].wallet) == Some(ids)
    ensures Inv(Finalised(s, c, ids), address)
  {
    var s' := Finalised(s, c, ids);
    SameWallets(s.users, s'.users);
    forall d | d in s'.users && s'.users[d].state == Complete ensures IdsName(s', d) {
      if d != c { assert IdsName(s, d); }
    }
  }

  lemma {:induction false} LoginInv(s: State, address: Claims -> Wallet, c: Claims, f: Fault)
    requires Inv(s, address)
    ensures Inv(Login(s, address, c, f), address)
  {
    if f == BeforeIntent {
    } else if c !in s.users {
      if !WalletTaken(s.users, address(c)) {
        var s1 := s.(users := s.users[c := User(address(c), Pending, None, None)]);
        SameWallets(s.users, s1.users);
        forall d | d in s1.users && s1.users[d].state == Complete ensures IdsName(s1, d) {
          assert IdsName(s, d);
        }
        assert OwnsNone(s.chain, address(c));
        ChainThenFinaliseInv(s1, address, c, f);
      }
    } else if s.users[c].state != Complete {
      var found := FindBootstrap(s.chain, s.users[c].wallet);
      if found.Some? {
        FinalisedInv(s, address, c, found.value);
      } else {
        assert !OwnsAll(s.chain, s.users[c].wallet);
        ChainThenFinaliseInv(s, address, c, f);
      }
    }
  }

  lemma {:induction false} RunInv(address: Claims -> Wallet, attempts: seq<Attempt>)
    ensures Inv(Run(address, attempts), address)
    decreases |attempts|
  {
    if attempts != [] {
      var n := |attempts| - 1;
      RunInv(address, attempts[..n]);
      LoginInv(Run(address, attempts[..n]), address, attempts[n].claims, attempts[n].fault);
    }
  }

  // ----- Recovery -----

  /** After any attempts, crashed or not, a wallet has at most one object of each kind and all three or none. */
  lemma {:induction false} NoOrphansNoDuplicates(address: Claims -> Wallet, attempts: seq<Attempt>, w: Wallet)
    ensures var s := Run(address, attempts);
            && NoDuplicates(s.chain) && (OwnsAll(s.chain, w) || OwnsNone(s.chain, w))
            && (OwnsAll(s.chain, w) ==> WalletTaken(s.users, w))
  {
    RunInv(address, attempts);
  }

  /** `complete` means the stored ids name the three objects of the user's wallet. */
  lemma {:induction false} CompleteNamesObjects(address: Claims -> Wallet, attempts: seq<Attempt>, c: Claims)
    requires c in Run(address, attempts).users && Run(address, attempts).users[c].state == Complete
    ensures IdsName(Run(address, attempts), c) && Run(address, attempts).users[c].wallet == address(c)
  {
    RunInv(address, attempts);
  }

  /** A crash-free login after any attempts completes, exactly unless another account already holds the wallet. */
  lemma {:induction false} NextLoginCompletes(address: Claims -> Wallet, attempts: seq<Attempt>, c: Claims)
    ensures var s := Run(address, attempts); var s' := Login(s, address, c, NoFault);
            (c in s'.users && s'.users[c].state == Complete && IdsName(s', c))
            <==> (c in s.users || !WalletTaken(s.users, address(c)))
  {
    RunInv(address, attempts);
    var s := Run(address, attempts);
    LoginInv(s, address, c, NoFault);
  }

  /** With one wallet per account, recovery always succeeds. */
  lemma {:induction false} RecoveryWithDistinctWallets(address: Claims -> Wallet, attempts: seq<Attempt>, c: Claims)
    requires forall d, e :: address(d) == address(e) ==> d == e
    ensures var s' := Login(Run(address, attempts), address, c, NoFault);
            c in s'.users && s'.users[c].state == Complete && IdsName(s', c)
  {
    RunInv(address, attempts);
    NextLoginCompletes(address, attempts, c);
  }

  /** Once complete, an account's rows and the chain are left alone by its later logins. */
  lemma {:induction false} CompleteIsStable(address: Claims -> Wallet, attempts: seq<Attempt>, c: Claims, f: Fault)
    requires c in Run(address, attempts).users && Run(address, attempts).users[c].state == Complete
    ensures Login(Run(address, attempts), address, c, f) == Run(address, attempts)
  {
    RunInv(address, attempts);
  }
}
